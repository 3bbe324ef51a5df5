/** The art editing form (src/components/UpdateArt.jsx): the form state built
    from the fetched art, the input handler, and the multipart payload that
    carries only the pictures that are set. */
module UpdateArtForm {
  import opened Base
  import opened Js
  import opened Seqs
  import opened Effects
  import Api

  /** The form's picture slots and the payload keys they are sent under; slot
      `j` of the form is filled from the fetched art's `PictureKeys[j]`. */
  const FileKeys: seq<string> := ["pictureFile1", "pictureFile2", "pictureFile3", "pictureFile4"]
  const PictureKeys: seq<string> := ["picture1", "picture2", "picture3", "picture4"]

  /** The text fields every payload starts with, in order. */
  const TextKeys: seq<string> := ["artTitle", "description", "category", "price"]

  /** The form state before the fetch settles: empty texts, no pictures. */
  const InitialForm: map<string, JsValue> :=
    map["artTitle" := Str(""), "description" := Str(""), "category" := Str(""), "price" := Str(""),
        "pictureFile1" := Null, "pictureFile2" := Null, "pictureFile3" := Null, "pictureFile4" := Null]

  /** The own properties that `{...v}` copies: those of an object, none of
      null, undefined, a number or a boolean. */
  function Spread(v: JsValue): map<string, JsValue>
  {
    if v.Obj? then v.props else map[]
  }

  /** The form state made from the fetched art: every property of the art,
      with each picture slot set to the matching picture or null. */
  function FromFetched(data: map<string, JsValue>): (r: map<string, JsValue>)
    ensures forall k :: k !in FileKeys ==> Get(r, k) == Get(data, k)
    ensures forall j :: 0 <= j < 4 ==>
              Get(r, FileKeys[j]) == (if Truthy(Get(data, PictureKeys[j])) then Get(data, PictureKeys[j]) else Null)
  {
    data[FileKeys[0] := Or(Get(data, PictureKeys[0]), Null)]
        [FileKeys[1] := Or(Get(data, PictureKeys[1]), Null)]
        [FileKeys[2] := Or(Get(data, PictureKeys[2]), Null)]
        [FileKeys[3] := Or(Get(data, PictureKeys[3]), Null)]
  }

  /** The value `handleInputChange` stores: a file input (which has a file
      list) gives its first file, undefined when the list is empty; any other
      input gives its text. */
  function InputValue(value: string, files: Option<seq<JsValue>>): (r: JsValue)
    ensures files.None? ==> r == Str(value)
    ensures files.Some? && files.value != [] ==> r == files.value[0]
    ensures files.Some? && files.value == [] ==> r == Undefined
  {
    match files
    case None => Str(value)
    case Some(list) => if list == [] then Undefined else list[0]
  }

  /** The payload entries of the first `k` picture slots: slot `j` adds
      `PictureKeys[j]` with its file when the slot is truthy. */
  function PictureEntries(form: map<string, JsValue>, k: nat): FormData
    requires k <= 4
  {
    if k == 0 then []
    else
      PictureEntries(form, k - 1)
      + (if Truthy(Get(form, FileKeys[k - 1])) then [(PictureKeys[k - 1], Get(form, FileKeys[k - 1]))] else [])
  }

  /** The fixed part of the payload: the four text fields, in order. */
  function TextEntries(form: map<string, JsValue>): (r: FormData)
    ensures Keys(r) == TextKeys
  {
    [(TextKeys[0], Get(form, TextKeys[0])), (TextKeys[1], Get(form, TextKeys[1])),
     (TextKeys[2], Get(form, TextKeys[2])), (TextKeys[3], Get(form, TextKeys[3]))]
  }

  /** The picture keys differ from each other (they differ in their digit). */
  lemma PictureKeysDistinct()
    ensures forall i, j :: 0 <= i < j < 4 ==> PictureKeys[i] != PictureKeys[j]
  {
    forall i, j | 0 <= i < j < 4
      ensures PictureKeys[i] != PictureKeys[j]
    {
      assert PictureKeys[i][7] == "1234"[i] && PictureKeys[j][7] == "1234"[j];
    }
  }

  /** The picture keys of the first `k` slots come in slot order, each at
      most once. */
  lemma {:induction false} PictureEntriesOrdered(form: map<string, JsValue>, k: nat)
    requires k <= 4
    ensures |PictureEntries(form, k)| <= k
    ensures IsSubsequence(Keys(PictureEntries(form, k)), PictureKeys[..k])
  {
    if k > 0 {
      PictureEntriesOrdered(form, k - 1);
      var prev := PictureEntries(form, k - 1);
      var key := PictureKeys[k - 1];
      var slot := if Truthy(Get(form, FileKeys[k - 1])) then [(key, Get(form, FileKeys[k - 1]))] else [];
      assert PictureEntries(form, k) == prev + slot;
      assert PictureKeys[..k] == PictureKeys[..k - 1] + [key];
      assert Keys(prev + slot) == Keys(prev) + Keys(slot);
      if slot == [] {
        assert IsSubsequence([], [key]);
        SubsequenceConcat(Keys(prev), PictureKeys[..k - 1], [], [key]);
        assert Keys(prev) + [] == Keys(prev);
      } else {
        assert Keys(slot) == [key];
        assert IsSubsequence([key], [key]) by {
          assert [key][1..] == [];
        }
        SubsequenceConcat(Keys(prev), PictureKeys[..k - 1], [key], [key]);
      }
    }
  }

  /** Among the first `k` slots, a picture is sent exactly when its slot is
      truthy, and then with that slot's file. */
  lemma {:induction false} PictureEntriesSent(form: map<string, JsValue>, k: nat)
    requires k <= 4
    ensures forall j :: 0 <= j < k ==>
              ((PictureKeys[j], Get(form, FileKeys[j])) in PictureEntries(form, k) <==> Truthy(Get(form, FileKeys[j])))
  {
    if k > 0 {
      PictureEntriesSent(form, k - 1);
      PictureKeysDistinct();
      var prev := PictureEntries(form, k - 1);
      var slot := if Truthy(Get(form, FileKeys[k - 1])) then [(PictureKeys[k - 1], Get(form, FileKeys[k - 1]))] else [];
      assert PictureEntries(form, k) == prev + slot;
      PictureEntriesOnly(form, k - 1);
      forall j | 0 <= j < k - 1
        ensures (PictureKeys[j], Get(form, FileKeys[j])) !in slot
      {
      }
    }
  }

  /** Every entry among the first `k` slots is a truthy slot's file under
      that slot's key. */
  lemma {:induction false} PictureEntriesOnly(form: map<string, JsValue>, k: nat)
    requires k <= 4
    ensures forall e :: e in PictureEntries(form, k) ==>
              exists j :: 0 <= j < k && e == (PictureKeys[j], Get(form, FileKeys[j])) && Truthy(e.1)
  {
    if k > 0 {
      PictureEntriesOnly(form, k - 1);
      var prev := PictureEntries(form, k - 1);
      var slot := if Truthy(Get(form, FileKeys[k - 1])) then [(PictureKeys[k - 1], Get(form, FileKeys[k - 1]))] else [];
      assert PictureEntries(form, k) == prev + slot;
    }
  }

  /** The payload of `handleUpdate`: the four text fields first, then one
      entry per truthy picture slot, in slot order. */
  method BuildPayload(form: map<string, JsValue>) returns (payload: FormData)
    ensures payload == TextEntries(form) + PictureEntries(form, 4)
  {
    payload := TextEntries(form);
    for i := 0 to 4
      invariant payload == TextEntries(form) + PictureEntries(form, i)
    {
      if Truthy(Get(form, FileKeys[i])) {
        payload := payload + [(PictureKeys[i], Get(form, FileKeys[i]))];
      }
    }
  }

  /** The payload starts with the four text fields and never carries more
      than eight entries; a picture is sent exactly when its slot is set. */
  lemma PayloadShape(form: map<string, JsValue>)
    ensures var p := TextEntries(form) + PictureEntries(form, 4);
            4 <= |p| <= 8 && Keys(p)[..4] == TextKeys
            && forall j :: 0 <= j < 4 ==>
                 ((PictureKeys[j], Get(form, FileKeys[j])) in p <==> Truthy(Get(form, FileKeys[j])))
  {
    PictureEntriesOrdered(form, 4);
    PictureEntriesSent(form, 4);
    var p := TextEntries(form) + PictureEntries(form, 4);
    assert Keys(p)[..4] == Keys(TextEntries(form));
    forall j | 0 <= j < 4
      ensures (PictureKeys[j], Get(form, FileKeys[j])) !in TextEntries(form)
    {
    }
  }

  /** A freshly fetched art that had no pictures sends only the text fields. */
  lemma NoPicturesNoFiles(data: map<string, JsValue>)
    requires forall j :: 0 <= j < 4 ==> !Truthy(Get(data, PictureKeys[j]))
    ensures PictureEntries(FromFetched(data), 4) == []
  {
    var form := FromFetched(data);
    assert forall j :: 0 <= j < 4 ==> Get(form, FileKeys[j]) == Null;
    assert PictureEntries(form, 1) == [];
    assert PictureEntries(form, 2) == [];
    assert PictureEntries(form, 3) == [];
  }

  /** The form's state; `artId` is the route parameter. */
  class UpdateArtView {
    const artId: string
    var art: map<string, JsValue>
    var effects: seq<Effect>

    constructor (routeArtId: string)
      ensures artId == routeArtId && art == InitialForm && effects == []
    {
      artId := routeArtId;
      art, effects := InitialForm, [];
    }

    /** The fetch effect. A fetched body replaces the form state; reading a
        picture of a null or undefined body throws, and like a failed call
        that is only logged. */
    method Load(outcome: Api.AxiosOutcome<JsValue>)
      modifies this
      ensures effects == old(effects) + [Send(GetArtByIdRequest(artId))]
      ensures outcome.Resolved? && outcome.data !in {Null, Undefined} ==> art == FromFetched(Spread(outcome.data))
      ensures outcome.Rejected? || outcome.data in {Null, Undefined} ==> art == old(art)
    {
      effects := effects + [Send(GetArtByIdRequest(artId))];
      match Api.Call(outcome) {
        case Success(data) =>
          if Prop(data, PictureKeys[0]).Success? {
            art := FromFetched(Spread(data));
          }
        case Failure(_) =>
      }
    }

    /** `handleInputChange`: only the named field changes. */
    method HandleInputChange(name: string, value: string, files: Option<seq<JsValue>>)
      modifies this
      ensures art == old(art)[name := InputValue(value, files)]
      ensures forall k :: k != name ==> Get(art, k) == Get(old(art), k)
      ensures effects == old(effects)
    {
      art := art[name := InputValue(value, files)];
    }

    /** `handleUpdate`: the payload is sent; a success is announced and leads
        to the gallery, a failure is only logged. */
    method HandleUpdate(outcome: Api.AxiosOutcome<JsValue>)
      modifies this
      ensures art == old(art)
      ensures outcome.Resolved? ==>
                effects == old(effects) + [Send(UpdateArtByIdRequest(artId, TextEntries(art) + PictureEntries(art, 4))),
                                           Alert(Str("Art updated successfully")), Navigate("/art-gallery")]
      ensures outcome.Rejected? ==>
                effects == old(effects) + [Send(UpdateArtByIdRequest(artId, TextEntries(art) + PictureEntries(art, 4)))]
    {
      var payload := BuildPayload(art);
      effects := effects + [Send(UpdateArtByIdRequest(artId, payload))];
      if Api.Call(outcome).Success? {
        effects := effects + [Alert(Str("Art updated successfully")), Navigate("/art-gallery")];
      }
    }
  }
}
