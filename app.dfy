/**
 * The state of the crop-recommendation page and its event handlers. Each
 * handler runs to completion in one step: what the prediction server or the
 * text-generation service answered is passed in as a parameter.
 */
module CropApp {
  import opened Wrappers
  import opened CropRules
  import opened Form

  const MissingFieldsMessage := "Please fill in all fields to get an accurate recommendation."
  const ServerErrorMessage := "Error connecting to the server. Make sure 'python app.py' is running!"

  /** What the POST to the prediction server yields: a decoded body, or a failure (network error or non-OK status). */
  datatype ServerReply = Answered(body: Prediction) | Failed

  class App {
    var formData: FormData
    var prediction: Option<Prediction>
    var loading: bool
    var error: string
    var aiGuide: string
    var loadingGuide: bool
    var chatQuery: string
    var chatResponse: string
    var loadingChat: bool

    /**
     * The state between events: no request is in flight, a prediction on
     * screen belongs to a completely filled form, and advisory text exists
     * only beside a prediction.
     */
    ghost predicate Valid()
      reads this
    {
      && !loading && !loadingGuide && !loadingChat
      && (prediction.Some? ==> !HasEmptyField(formData))
      && (prediction.None? ==> aiGuide == "" && chatResponse == "")
    }

    /** The page as first rendered. */
    constructor ()
      ensures Valid()
      ensures formData == EmptyForm && prediction == None && error == ""
      ensures aiGuide == "" && chatQuery == "" && chatResponse == ""
      ensures !loading && !loadingGuide && !loadingChat
    {
      formData := EmptyForm;
      prediction := None;
      loading := false;
      error := "";
      aiGuide := "";
      loadingGuide := false;
      chatQuery := "";
      chatResponse := "";
      loadingChat := false;
    }

    /**
     * Editing input `name`: only that field takes the new text, and a
     * prediction on screen is dropped together with the advisory text.
     */
    method InputChange(name: Field, value: string)
      requires Valid()
      modifies this
      ensures Valid()
      ensures formData.Get(name) == value
      ensures forall f :: f != name ==> formData.Get(f) == old(formData).Get(f)
      ensures old(prediction).Some? ==> prediction == None && aiGuide == "" && chatResponse == ""
      ensures old(prediction).None? ==>
        prediction == old(prediction) && aiGuide == old(aiGuide) && chatResponse == old(chatResponse)
      ensures error == old(error) && chatQuery == old(chatQuery)
      ensures loading == old(loading) && loadingGuide == old(loadingGuide) && loadingChat == old(loadingChat)
    {
      formData := formData.Set(name, value);
      if prediction.Some? {
        prediction := None;
        aiGuide := "";
        chatResponse := "";
      }
    }

    /**
     * Submitting the form. `sent` tells whether the request to the prediction
     * server is made; `reply` is its outcome and is consulted only then.
     */
    method Submit(reply: ServerReply) returns (sent: bool)
      requires Valid()
      modifies this
      ensures Valid()
      ensures sent <==> !exists f :: old(formData).Get(f) == ""
      ensures formData == old(formData) && chatQuery == old(chatQuery)
      ensures aiGuide == "" && chatResponse == "" && !loading
      ensures loadingGuide == old(loadingGuide) && loadingChat == old(loadingChat)
      ensures !sent ==> error == MissingFieldsMessage && prediction == old(prediction) == None
      ensures sent && reply.Answered? ==> error == "" && prediction == Some(reply.body)
      ensures sent && reply.Failed? ==> error == ServerErrorMessage && prediction == old(prediction)
    {
      HasEmptyFieldIff(formData);
      error := "";
      loading := true;
      aiGuide := "";
      chatResponse := "";

      if HasEmptyField(formData) {
        error := MissingFieldsMessage;
        loading := false;
        return false;
      }

      sent := true;
      match reply {
        case Answered(body) =>
          prediction := Some(body);
        case Failed =>
          error := ServerErrorMessage;
      }
      loading := false;
    }

    /** Asking for a care guide; `text` is what the text-generation service answered. */
    method GenerateGuide(text: string)
      requires Valid()
      modifies this
      ensures Valid()
      ensures old(prediction).None? ==> unchanged(this)
      ensures old(prediction).Some? ==> aiGuide == text
      ensures formData == old(formData) && prediction == old(prediction) && error == old(error)
      ensures chatQuery == old(chatQuery) && chatResponse == old(chatResponse)
      ensures loading == old(loading) && loadingGuide == old(loadingGuide) && loadingChat == old(loadingChat)
    {
      if prediction.None? {
        return;
      }
      loadingGuide := true;
      aiGuide := text;
      loadingGuide := false;
    }

    /** Typing in the question box. */
    method ChatQueryChange(query: string)
      requires Valid()
      modifies this
      ensures Valid()
      ensures chatQuery == query
      ensures formData == old(formData) && prediction == old(prediction) && error == old(error)
      ensures aiGuide == old(aiGuide) && chatResponse == old(chatResponse)
      ensures loading == old(loading) && loadingGuide == old(loadingGuide) && loadingChat == old(loadingChat)
    {
      chatQuery := query;
    }

    /**
     * Sending the question; `text` is what the text-generation service
     * answered. A blank question or a missing prediction changes nothing.
     */
    method ChatSubmit(text: string)
      requires Valid()
      modifies this
      ensures Valid()
      ensures IsBlank(old(chatQuery)) || old(prediction).None? ==> unchanged(this)
      ensures !IsBlank(old(chatQuery)) && old(prediction).Some? ==> chatResponse == text
      ensures formData == old(formData) && prediction == old(prediction) && error == old(error)
      ensures aiGuide == old(aiGuide) && chatQuery == old(chatQuery)
      ensures loading == old(loading) && loadingGuide == old(loadingGuide) && loadingChat == old(loadingChat)
    {
      TrimEmptyIffBlank(chatQuery);
      if Trim(chatQuery) == "" || prediction.None? {
        return;
      }
      loadingChat := true;
      chatResponse := text;
      loadingChat := false;
    }
  }
}
