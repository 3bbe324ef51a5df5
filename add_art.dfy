/** The admin's add-art form (src/components/AddArt.js): the input handler
    that keeps the chosen files and their names, the eight-field payload, and
    the result message with its style. */
module AddArtForm {
  import opened Base
  import opened Js
  import opened Seqs
  import opened Effects
  import Api

  /** The payload's keys, always all eight and in this order. */
  const PayloadKeys: seq<string> :=
    ["artTitle", "description", "category", "price", "file1", "file2", "file3", "file4"]

  const SuccessText := "Art item added successfully!"
  const FailureText := "Error adding art item"

  /** The form state on mount: empty texts and no files. */
  const InitialForm: map<string, JsValue> :=
    map["artTitle" := Str(""), "description" := Str(""), "category" := Str(""), "price" := Str(""),
        "file1" := Null, "file2" := Null, "file3" := Null, "file4" := Null]

  const InitialFileNames: map<string, JsValue> :=
    map["file1" := Str(""), "file2" := Str(""), "file3" := Str(""), "file4" := Str("")]

  /** `files[0]`: the first chosen file, undefined when none was chosen. */
  function FirstFile(files: seq<JsValue>): (r: JsValue)
    ensures files == [] ==> r == Undefined
    ensures files != [] ==> r == files[0]
  {
    if files == [] then Undefined else files[0]
  }

  /** `files[0]?.name || ''`: the chosen file's name, or the empty string. */
  function ChosenName(files: seq<JsValue>): (r: JsValue)
    ensures files == [] ==> r == Str("")
    ensures files != [] && files[0].Blob? && files[0].name != "" ==> r == Str(files[0].name)
    ensures r == Str("") || Truthy(r)
  {
    Or(OptProp(FirstFile(files), "name"), Str(""))
  }

  /** The payload of `handleSubmit`: the eight fields of the form state in
      their fixed order, each with its current value, a missing file
      included. */
  function Payload(form: map<string, JsValue>): (r: FormData)
    ensures Keys(r) == PayloadKeys
    ensures forall i :: 0 <= i < |r| ==> r[i].1 == Get(form, PayloadKeys[i])
  {
    seq(|PayloadKeys|, i requires 0 <= i < |PayloadKeys| => (PayloadKeys[i], Get(form, PayloadKeys[i])))
  }

  /** The result message for the outcome of `addArt`. */
  function ResultMessage(succeeded: bool): (r: string)
    ensures r != ""
    ensures succeeded ==> r == SuccessText
    ensures !succeeded ==> r == FailureText
  {
    if succeeded then SuccessText else FailureText
  }

  /** How the message is rendered: not at all when it is empty, otherwise a
      paragraph with the `error` class exactly when it contains "Error". */
  function MessageClass(message: string): (r: Option<string>)
    ensures r.None? <==> message == ""
    ensures r.Some? ==> (r.value == "error" <==> Contains(message, "Error"))
    ensures r.Some? ==> (r.value == "" <==> !Contains(message, "Error"))
  {
    if message == "" then None
    else if Contains(message, "Error") then Some("error")
    else Some("")
  }

  /** The failure text is styled as an error and the success text is not. */
  lemma {:induction false} ResultMessageClass()
    ensures MessageClass(ResultMessage(false)) == Some("error")
    ensures MessageClass(ResultMessage(true)) == Some("")
  {
    assert "Error" <= FailureText[0..];
    forall i | 0 <= i <= |SuccessText|
      ensures !("Error" <= SuccessText[i..])
    {
      if i < |SuccessText| {
        assert SuccessText[i..][0] == SuccessText[i];
        assert SuccessText[i] != 'E';
      }
    }
  }

  /** The form's state. */
  class AddArtView {
    var formData: map<string, JsValue>
    var fileNames: map<string, JsValue>
    var message: string
    var effects: seq<Effect>

    constructor ()
      ensures formData == InitialForm && fileNames == InitialFileNames && message == "" && effects == []
    {
      formData, fileNames, message, effects := InitialForm, InitialFileNames, "", [];
    }

    /** `handleChange`. A file input stores its first file under its name and
        records the file's name for display; any other input stores its text.
        No other field changes. */
    method HandleChange(name: string, inputType: string, value: string, files: seq<JsValue>)
      modifies this
      ensures inputType == "file" ==>
                formData == old(formData)[name := FirstFile(files)]
                && fileNames == old(fileNames)[name := ChosenName(files)]
      ensures inputType != "file" ==>
                formData == old(formData)[name := Str(value)] && fileNames == old(fileNames)
      ensures forall k :: k != name ==> Get(formData, k) == Get(old(formData), k)
      ensures message == old(message) && effects == old(effects)
    {
      if inputType == "file" {
        formData := formData[name := FirstFile(files)];
        fileNames := fileNames[name := ChosenName(files)];
      } else {
        formData := formData[name := Str(value)];
      }
    }

    /** `handleSubmit`: the eight-field payload is posted and the outcome
        picks the message. */
    method HandleSubmit(outcome: Api.AxiosOutcome<JsValue>)
      modifies this
      ensures effects == old(effects) + [Send(AddArtRequest(Payload(formData)))]
      ensures message == ResultMessage(outcome.Resolved?)
      ensures MessageClass(message) == Some(if outcome.Resolved? then "" else "error")
      ensures formData == old(formData) && fileNames == old(fileNames)
    {
      var payload := Payload(formData);
      effects := effects + [Send(AddArtRequest(payload))];
      match Api.Call(outcome) {
        case Success(_) => message := SuccessText;
        case Failure(_) => message := FailureText;
      }
      ResultMessageClass();
    }
  }
}
