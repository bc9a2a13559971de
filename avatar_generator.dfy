/** The avatar dialog: describe an avatar (step 1), wait while the workflow
    draws it (step 2), pick one of the pictures (step 3). The replies of the
    workflow are inputs of the handlers; toasts are not modelled. */
module AvatarGenerator {
  import opened Common
  import opened Strings
  import opened CozeApi

  const DESCRIBE: nat := 1
  const GENERATING: nat := 2
  const CHOOSING: nat := 3
  const REGENERATE_PREFIX: string := "根据以下描述重新生成头像："

  /** The user id sent along: the signed-in user's, else the default. */
  function UserIdOf(userId: Option<string>): (id: string)
    ensures id != ""
  {
    OrElse(userId, DEFAULT_USER_ID)
  }

  class AvatarDialog {
    var step: nat
    var loading: bool
    var avatars: seq<string>
    var selected: Option<string>
    var conversationId: Option<string>
    var description: string

    /** Between two handlers the dialog is never left generating or loading,
        and the choosing step always has a picture to offer. */
    ghost predicate Valid()
      reads this`step, this`loading, this`avatars
    {
      (step == DESCRIBE || step == CHOOSING) && !loading && (step == CHOOSING ==> |avatars| >= 1)
    }

    constructor ()
      ensures Valid()
      ensures step == DESCRIBE && avatars == [] && selected.None? && conversationId.None? && description == ""
    {
      step, loading, avatars, selected, conversationId, description := DESCRIBE, false, [], None, None, "";
    }

    /** The cancel button and closing by the overlay are offered except
        while a generation runs. */
    function CanClose(): (r: bool)
      reads this`step
      ensures r <==> step != GENERATING
    {
      step != GENERATING
    }

    /** `handleGenerateAvatar()`: a blank description sends nothing and
        changes nothing. Otherwise the request is sent with the description;
        a success stores the pictures and the conversation and moves to the
        choosing step, a failure goes back to the description step. */
    method HandleGenerateAvatar(userId: Option<string>, http: CozeHttp) returns (sent: Option<WorkflowBody>)
      requires Valid()
      modifies this`step, this`loading, this`avatars, this`conversationId
      ensures Valid()
      ensures AllSpace(description) ==> sent.None? && unchanged(this)
      ensures !AllSpace(description) ==>
        sent == Some(GenerateAvatarWithCoze(Some(description), Some(UserIdOf(userId)), http).0)
      ensures !AllSpace(description) && http.Replied? ==>
        && step == CHOOSING && avatars == ImagesOf(Some(http.data)) && conversationId == http.data.conversationId
      ensures !AllSpace(description) && http.HttpError? ==>
        step == DESCRIBE && avatars == old(avatars) && conversationId == old(conversationId)
    {
      if IsBlank(description) {
        return None;
      }
      var call := GenerateAvatarWithCoze(Some(description), Some(UserIdOf(userId)), http);
      loading, step := true, GENERATING;
      ShowGeneration(call.1);
      loading := false;
      sent := Some(call.0);
    }

    /** What a finished generation leaves: the pictures and the conversation
        of a success, with the choosing step when there is a picture; the
        description step after a failure. */
    method ShowGeneration(result: AvatarResult)
      requires result.Generated? ==> |result.images| >= 1
      modifies this`step, this`avatars, this`conversationId
      ensures result.Generated? ==> step == CHOOSING && avatars == result.images && conversationId == result.conversationId
      ensures result.AvatarFailed? ==> step == DESCRIBE && avatars == old(avatars) && conversationId == old(conversationId)
    {
      if result.Generated? {
        avatars, conversationId := result.images, result.conversationId;
        if |result.images| > 0 {
          step := CHOOSING;
        }
      } else {
        step := DESCRIBE;
      }
    }

    /** `handleRegenerate()`: without a conversation nothing is sent;
        otherwise the follow-up request asks again within the conversation,
        and a success replaces the pictures. The step is left as it was. */
    method HandleRegenerate(userId: Option<string>, http: CozeHttp) returns (sent: Option<WorkflowBody>)
      requires Valid()
      modifies this`loading, this`avatars
      ensures Valid()
      ensures step == old(step)
      ensures !Truthy(conversationId) ==> sent.None? && unchanged(this)
      ensures Truthy(conversationId) ==>
        && sent.Some? && sent.value.conversationId == conversationId
        && sent.value.query == REGENERATE_PREFIX + description
      ensures Truthy(conversationId) && http.Replied? ==> avatars == ImagesOf(Some(http.data))
      ensures Truthy(conversationId) && http.HttpError? ==> avatars == old(avatars)
    {
      if !Truthy(conversationId) {
        return None;
      }
      loading := true;
      var call := ContinueCozeConversation(conversationId, Some(REGENERATE_PREFIX + description), Some(UserIdOf(userId)), http);
      if call.1.Generated? {
        ImagesNeverEmpty(Some(http.data));
        avatars := call.1.images;
      }
      loading := false;
      sent := call.0;
    }

    /** `handleSelectAvatar(imageUrl)`: an empty choice does nothing;
        otherwise the saved link is handed to the page and the dialog is
        reset. */
    method HandleSelectAvatar(imageUrl: Option<string>, userId: Option<string>) returns (delivered: Option<string>)
      requires Valid()
      modifies this
      ensures Valid()
      ensures !Truthy(imageUrl) ==> delivered.None? && unchanged(this)
      ensures Truthy(imageUrl) ==>
        && delivered == imageUrl
        && step == DESCRIBE && avatars == [] && selected.None? && conversationId.None? && description == ""
    {
      if !Truthy(imageUrl) {
        return None;
      }
      loading := true;
      var savedUrl := SaveAvatarImage(imageUrl.value, UserIdOf(userId));
      HandleClose();
      loading := false;
      delivered := Some(savedUrl);
    }

    /** `handleClose()`: back to an empty description step. */
    method HandleClose()
      modifies this`step, this`avatars, this`selected, this`conversationId, this`description
      ensures step == DESCRIBE && avatars == [] && selected.None? && conversationId.None? && description == ""
    {
      step, avatars, selected, conversationId, description := DESCRIBE, [], None, None, "";
    }
  }
}
