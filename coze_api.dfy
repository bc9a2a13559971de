/** The client of the Coze workflow that draws avatars: the request body of a
    workflow call, the avatar and follow-up calls built on it, and the
    extraction of image links from a reply. The HTTP exchange is an input. */
module CozeApi {
  import opened Common
  import opened Strings
  import opened Seqs

  const WORKFLOW_ID: string := "7533136698567098411"
  const DEFAULT_USER_ID: string := "123456789"
  const DEFAULT_QUERY: string := "生成头像"
  const DEFAULT_DESCRIPTION: string := "一个人的头像"
  const MISSING_CONVERSATION: string := "缺少对话ID"
  const UNKNOWN_STATUS: string := "未知状态"
  const API_ERROR_PREFIX: string := "API调用失败: "
  const FALLBACK_NO_REPLY: string := "https://picsum.photos/200/200?random=1"
  const FALLBACK_NO_IMAGES: string := "https://picsum.photos/200/200?random=2"
  const FILE_URL_PREFIX: string := "https://api.coze.cn/open_api/v1/files/"
  const FILE_URL_SUFFIX: string := "/content"
  const IMAGE_EXTENSIONS: seq<string> := [".jpg", ".jpeg", ".png", ".gif", ".webp"]

  // ---------------------------------------------------------------------
  // The workflow call.

  /** The `parameters` of `callCozeWorkflow`; absent keys are `None`. */
  datatype WorkflowParams = WorkflowParams(
    userId: Option<string>, userPrompt: Option<string>, stream: Option<bool>,
    autoSaveHistory: Option<bool>, conversationId: Option<string>)

  /** The JSON body posted to the workflow. */
  datatype WorkflowBody = WorkflowBody(
    botId: string, userId: string, query: string, stream: bool, autoSaveHistory: bool,
    conversationId: Option<string>)

  /** The request body: a falsy user id or prompt falls back to the defaults,
      `stream` is on only when given as `true`, and history is saved unless
      the caller said otherwise. */
  function WorkflowRequest(p: WorkflowParams): (b: WorkflowBody)
    ensures b.botId == WORKFLOW_ID
    ensures b.userId == (if Truthy(p.userId) then p.userId.value else DEFAULT_USER_ID)
    ensures b.query == (if Truthy(p.userPrompt) then p.userPrompt.value else DEFAULT_QUERY)
    ensures b.stream <==> p.stream == Some(true)
    ensures b.autoSaveHistory <==> p.autoSaveHistory != Some(false)
    ensures b.conversationId == p.conversationId
  {
    WorkflowBody(WORKFLOW_ID, OrElse(p.userId, DEFAULT_USER_ID), OrElse(p.userPrompt, DEFAULT_QUERY),
                 p.stream == Some(true), p.autoSaveHistory.GetOr(true), p.conversationId)
  }

  /** One message of a reply. `content` is `None` unless it is a string;
      `fileIds` is `None` unless it is an array. */
  datatype CozeMessage = CozeMessage(content: Option<string>, fileIds: Option<seq<string>>)

  /** The reply's `messages` field: absent (or falsy), an array, or some other
      truthy value. */
  datatype MessagesField = NoMessages | MessageArray(items: seq<CozeMessage>) | OtherMessages

  /** The reply's `message` field: absent (or falsy), an object, or some
      other truthy value. */
  datatype MessageField = NoMessage | MessageObject(item: CozeMessage) | OtherMessage

  /** The reply body (`response.data`). */
  datatype CozeReply = CozeReply(messages: MessagesField, message: MessageField, conversationId: Option<string>)

  /** What the HTTP call did: a reply, or an error carrying the response
      status and the server's `msg` when there was a response. */
  datatype CozeHttp =
    | Replied(data: CozeReply)
    | HttpError(status: Option<nat>, serverMsg: Option<string>, message: string)

  datatype WorkflowResult = WorkflowOk(data: CozeReply, conversationId: Option<string>) | WorkflowFailed(error: string)

  /** `${status || '未知状态'}` */
  function StatusText(status: Option<nat>): string {
    if status.Some? && status.value != 0 then Decimal(status.value) else UNKNOWN_STATUS
  }

  /** `callCozeWorkflow(parameters)` against one HTTP exchange. */
  function CallCozeWorkflow(p: WorkflowParams, http: CozeHttp): (r: WorkflowResult)
    ensures http.Replied? ==> r == WorkflowOk(http.data, http.data.conversationId)
    ensures http.HttpError? ==> r.WorkflowFailed? && StartsWith(r.error, API_ERROR_PREFIX)
  {
    match http
    case Replied(data) => WorkflowOk(data, data.conversationId)
    case HttpError(status, serverMsg, message) =>
      var e := API_ERROR_PREFIX + StatusText(status) + " - " + OrElse(serverMsg, message);
      assert e[..|API_ERROR_PREFIX|] == API_ERROR_PREFIX;
      WorkflowFailed(e)
  }

  // ---------------------------------------------------------------------
  // Links in a text: `text.match(/(https?:\/\/[^\s]+)/g)` and the image filter.

  predicate NoSpace(s: string) {
    forall i :: 0 <= i < |s| ==> !IsSpace(s[i])
  }

  /** The end of the run of non-space characters from `p`: where `[^\s]+`
      stops. */
  function SpaceFreeEnd(s: string, p: nat): (e: nat)
    requires p <= |s|
    ensures p <= e <= |s| && NoSpace(s[p..e]) && (e == |s| || IsSpace(s[e]))
    decreases |s| - p
  {
    if p < |s| && !IsSpace(s[p]) then
      var e := SpaceFreeEnd(s, p + 1);
      assert forall i :: 0 <= i < e - p ==> s[p..e][i] == s[p + i];
      e
    else p
  }

  /** The link pattern matches at `p`: the scheme, then at least one
      non-space character. */
  predicate LinkAt(s: string, p: nat) {
    p <= |s| &&
    ((StartsWith(s[p..], "http://") && p + 7 < |s| && !IsSpace(s[p + 7]))
     || (StartsWith(s[p..], "https://") && p + 8 < |s| && !IsSpace(s[p + 8])))
  }

  /** The global match from `p` on: each link runs to the next white space,
      and the search resumes where it ended. */
  function ScanLinks(s: string, p: nat): (r: seq<string>)
    requires p <= |s|
    ensures r == [] <==> forall q :: p <= q < |s| ==> !LinkAt(s, q)
    decreases |s| - p
  {
    if p == |s| then []
    else if LinkAt(s, p) then
      var e := SpaceFreeEnd(s, p);
      [s[p..e]] + ScanLinks(s, e)
    else
      ScanLinks(s, p + 1)
  }

  /** Every link found is the text from a place where the pattern matches up
      to the next white space. */
  lemma {:induction false} LinksAreMatches(s: string, p: nat)
    requires p <= |s|
    ensures forall u :: u in ScanLinks(s, p) ==> exists q :: p <= q < |s| && LinkAt(s, q) && u == s[q..SpaceFreeEnd(s, q)]
    decreases |s| - p
  {
    if p < |s| {
      if LinkAt(s, p) {
        var e := SpaceFreeEnd(s, p);
        LinksAreMatches(s, e);
        assert ScanLinks(s, p) == [s[p..e]] + ScanLinks(s, e);
      } else {
        LinksAreMatches(s, p + 1);
      }
    }
  }

  /** A found link starts with the scheme and holds no white space. */
  lemma LinkShape(s: string, q: nat)
    requires q < |s| && LinkAt(s, q)
    ensures var u := s[q..SpaceFreeEnd(s, q)];
      (StartsWith(u, "http://") || StartsWith(u, "https://")) && NoSpace(u)
  {
    var e := SpaceFreeEnd(s, q);
    if StartsWith(s[q..], "http://") {
      assert forall i :: q <= i < q + 7 ==> s[i] == "http://"[i - q];
      assert e >= q + 8;
      assert s[q..e][..7] == s[q..][..7];
    } else {
      assert forall i :: q <= i < q + 8 ==> s[i] == "https://"[i - q];
      assert e >= q + 9;
      assert s[q..e][..8] == s[q..][..8];
    }
  }

  /** The link's lower-cased form ends with an image extension. */
  predicate IsImageLink(url: string) {
    exists i :: 0 <= i < |IMAGE_EXTENSIONS| && EndsWith(ToLower(url), IMAGE_EXTENSIONS[i])
  }

  /** `extractUrlsFromText(text)`: the links of the text, in order, that name
      an image file. */
  function ExtractUrlsFromText(text: string): (r: seq<string>)
    ensures forall u :: u in r <==> u in ScanLinks(text, 0) && IsImageLink(u)
    ensures IsSubsequence(r, ScanLinks(text, 0))
  {
    FilterIsSubsequence(IsImageLink, ScanLinks(text, 0));
    Filter(IsImageLink, ScanLinks(text, 0))
  }

  /** Every extracted link starts with `http://` or `https://`, holds no white
      space, and ends with an image extension in any letter case. */
  lemma ExtractedLinkShape(text: string)
    ensures forall u :: u in ExtractUrlsFromText(text) ==>
      (StartsWith(u, "http://") || StartsWith(u, "https://")) && NoSpace(u) && IsImageLink(u)
  {
    LinksAreMatches(text, 0);
    forall u | u in ExtractUrlsFromText(text)
      ensures (StartsWith(u, "http://") || StartsWith(u, "https://")) && NoSpace(u)
    {
      var q :| 0 <= q < |text| && LinkAt(text, q) && u == text[q..SpaceFreeEnd(text, q)];
      LinkShape(text, q);
    }
  }

  // ---------------------------------------------------------------------
  // Image links of a reply.

  /** `https://api.coze.cn/open_api/v1/files/${fileId}/content` */
  function FileUrl(fileId: string): string {
    FILE_URL_PREFIX + fileId + FILE_URL_SUFFIX
  }

  function FileUrls(fileIds: seq<string>): (r: seq<string>)
    ensures |r| == |fileIds| && forall i :: 0 <= i < |fileIds| ==> r[i] == FileUrl(fileIds[i])
  {
    seq(|fileIds|, i requires 0 <= i < |fileIds| => FileUrl(fileIds[i]))
  }

  /** What one message contributes: the image links of its text, then one
      download link per file id. */
  function MessageImages(m: CozeMessage): seq<string> {
    (if Truthy(m.content) then ExtractUrlsFromText(m.content.value) else [])
    + (if m.fileIds.Some? then FileUrls(m.fileIds.value) else [])
  }

  /** The contributions of `items`, message by message. */
  function ArrayImages(items: seq<CozeMessage>): seq<string> {
    if items == [] then [] else ArrayImages(items[..|items| - 1]) + MessageImages(items[|items| - 1])
  }

  /** The links collected before the fallback: an array of messages wins
      over a single message object. */
  function Collected(reply: CozeReply): seq<string> {
    match reply.messages
    case MessageArray(items) => ArrayImages(items)
    case _ => if reply.message.MessageObject? then MessageImages(reply.message.item) else []
  }

  /** `extractImagesFromCozeResponse(response)`, as a value. */
  function ImagesOf(response: Option<CozeReply>): (r: seq<string>)
    ensures |r| >= 1
    ensures response.None? ==> r == [FALLBACK_NO_REPLY]
    ensures response.Some? && Collected(response.value) != [] ==> r == Collected(response.value)
    ensures r == [FALLBACK_NO_REPLY] || r == [FALLBACK_NO_IMAGES] || r == Collected(response.value)
  {
    if response.None? || (response.value.messages.NoMessages? && response.value.message.NoMessage?) then
      [FALLBACK_NO_REPLY]
    else if Collected(response.value) == [] then
      [FALLBACK_NO_IMAGES]
    else
      Collected(response.value)
  }

  /** `extractImagesFromCozeResponse(response)`: the links are pushed message
      by message, file id by file id. */
  method ExtractImagesFromCozeResponse(response: Option<CozeReply>) returns (imageUrls: seq<string>)
    ensures imageUrls == ImagesOf(response)
  {
    if response.None? || (response.value.messages.NoMessages? && response.value.message.NoMessage?) {
      return [FALLBACK_NO_REPLY];
    }
    var reply := response.value;
    imageUrls := [];
    if reply.messages.MessageArray? {
      var items := reply.messages.items;
      var j := 0;
      while j < |items|
        invariant 0 <= j <= |items|
        invariant imageUrls == ArrayImages(items[..j])
      {
        imageUrls := CollectMessage(imageUrls, items[j]);
        assert items[..j + 1][..j] == items[..j];
        j := j + 1;
      }
      assert items[..j] == items;
    } else if reply.message.MessageObject? {
      imageUrls := CollectMessage(imageUrls, reply.message.item);
    }
    if |imageUrls| == 0 {
      return [FALLBACK_NO_IMAGES];
    }
  }

  /** The body of the `forEach` for one message. */
  method CollectMessage(acc: seq<string>, m: CozeMessage) returns (r: seq<string>)
    ensures r == acc + MessageImages(m)
  {
    r := acc;
    if Truthy(m.content) {
      r := r + ExtractUrlsFromText(m.content.value);
    }
    if m.fileIds.Some? {
      r := AppendFileUrls(r, m.fileIds.value);
    }
  }

  /** The inner `forEach`: one download link per file id, in order. */
  method AppendFileUrls(acc: seq<string>, ids: seq<string>) returns (r: seq<string>)
    ensures r == acc + FileUrls(ids)
  {
    r := acc;
    var k := 0;
    while k < |ids|
      invariant 0 <= k <= |ids| && r == acc + FileUrls(ids)[..k]
    {
      r := r + [FileUrl(ids[k])];
      k := k + 1;
    }
    assert FileUrls(ids)[..k] == FileUrls(ids);
  }

  /** The extraction always offers at least one picture. */
  lemma ImagesNeverEmpty(response: Option<CozeReply>)
    ensures |ImagesOf(response)| >= 1
    ensures ImagesOf(response) == [FALLBACK_NO_REPLY] ||
            ImagesOf(response) == [FALLBACK_NO_IMAGES] ||
            ImagesOf(response) == Collected(response.value)
  {
  }

  /** A reply with an array of messages is read from the array alone; the
      single `message` is then ignored. */
  lemma ArrayTakesPrecedence(items: seq<CozeMessage>, m: MessageField, m2: MessageField, c: Option<string>)
    ensures ImagesOf(Some(CozeReply(MessageArray(items), m, c))) == ImagesOf(Some(CozeReply(MessageArray(items), m2, c)))
  {
  }

  /** A single message object is read exactly like a one-element array. */
  lemma {:induction false} SingleMessageLikeArray(item: CozeMessage, c: Option<string>)
    ensures ImagesOf(Some(CozeReply(NoMessages, MessageObject(item), c))) == ImagesOf(Some(CozeReply(MessageArray([item]), NoMessage, c)))
  {
    assert [item][..0] == [];
    assert ArrayImages([item]) == ArrayImages([]) + MessageImages(item);
  }

  /** Every collected link is an image link of some message's text or a file
      download link. */
  lemma {:induction false} ArrayImagesOrigin(items: seq<CozeMessage>)
    ensures forall u :: u in ArrayImages(items) ==> IsImageLink(u) || exists id :: u == FileUrl(id)
  {
    if items != [] {
      ArrayImagesOrigin(items[..|items| - 1]);
      var m := items[|items| - 1];
      forall u | u in MessageImages(m) ensures IsImageLink(u) || exists id :: u == FileUrl(id) {
        if m.fileIds.Some? && u in FileUrls(m.fileIds.value) {
          var i :| 0 <= i < |m.fileIds.value| && FileUrls(m.fileIds.value)[i] == u;
          assert u == FileUrl(m.fileIds.value[i]);
        }
      }
    }
  }

  // ---------------------------------------------------------------------
  // Avatar calls.

  /** `{ success: true, images, conversationId }` or `{ success: false, error }` */
  datatype AvatarResult = Generated(images: seq<string>, conversationId: Option<string>) | AvatarFailed(error: string)

  /** The instructions around the description of the wanted avatar. */
  const PROMPT_HEAD: string := "根据以下详细描述生成高质量头像：\n\n"
  const PROMPT_TAIL: string :=
    "\n\n要求：\n1. 图像清晰，细节丰富，分辨率至少为512x512\n2. 风格明确，符合现代审美\n3. 色彩搭配协调\n4. 表情自然\n"
    + "5. 请生成3个不同风格的头像供选择（如卡通、写实、油画等）\n6. 直接返回图片链接，不要添加其他文字说明"

  /** The prompt sent for `description`, from which the description can be
      read back between the fixed head and tail. */
  function AvatarPrompt(description: string): (q: string)
    ensures |q| == |PROMPT_HEAD| + |description| + |PROMPT_TAIL|
    ensures StartsWith(q, PROMPT_HEAD) && q[|PROMPT_HEAD|..|q| - |PROMPT_TAIL|] == description
  {
    var q := PROMPT_HEAD + description + PROMPT_TAIL;
    assert q[..|PROMPT_HEAD|] == PROMPT_HEAD;
    assert q[|PROMPT_HEAD|..|q| - |PROMPT_TAIL|] == description;
    q
  }

  function FromWorkflow(r: WorkflowResult): AvatarResult {
    match r
    case WorkflowFailed(e) => AvatarFailed(e)
    case WorkflowOk(data, cid) => Generated(ImagesOf(Some(data)), cid)
  }

  /** `generateAvatarWithCoze({ description, user_id })`: the request sent
      and the result. */
  function GenerateAvatarWithCoze(description: Option<string>, userId: Option<string>, http: CozeHttp): (r: (WorkflowBody, AvatarResult))
    ensures r.0.query == AvatarPrompt(OrElse(description, DEFAULT_DESCRIPTION))
    ensures r.0.userId == OrElse(userId, DEFAULT_USER_ID) && r.0.conversationId.None?
    ensures http.Replied? ==> r.1 == Generated(ImagesOf(Some(http.data)), http.data.conversationId) && |r.1.images| >= 1
    ensures http.HttpError? ==> r.1.AvatarFailed?
  {
    var p := WorkflowParams(Some(OrElse(userId, DEFAULT_USER_ID)), Some(AvatarPrompt(OrElse(description, DEFAULT_DESCRIPTION))), None, None, None);
    var result := FromWorkflow(CallCozeWorkflow(p, http));
    if http.Replied? then
      ImagesNeverEmpty(Some(http.data));
      (WorkflowRequest(p), result)
    else
      (WorkflowRequest(p), result)
  }

  /** `continueCozeConversation(conversationId, prompt, user_id)`: without a
      conversation id nothing is sent and the result is the missing-id error;
      otherwise the workflow is called inside that conversation. */
  function ContinueCozeConversation(conversationId: Option<string>, prompt: Option<string>, userId: Option<string>, http: CozeHttp)
    : (r: (Option<WorkflowBody>, AvatarResult))
    ensures !Truthy(conversationId) ==> r == (None, AvatarFailed(MISSING_CONVERSATION))
    ensures Truthy(conversationId) ==> r.0.Some? && r.0.value.conversationId == conversationId
    ensures Truthy(conversationId) ==> (r.1.Generated? <==> http.Replied?)
  {
    if !Truthy(conversationId) then (None, AvatarFailed(MISSING_CONVERSATION))
    else
      var p := WorkflowParams(Some(userId.GetOr(DEFAULT_USER_ID)), prompt, None, None, conversationId);
      (Some(WorkflowRequest(p)), FromWorkflow(CallCozeWorkflow(p, http)))
  }

  /** `saveAvatarImage(imageUrl, userId)`: nothing is uploaded; the link is
      handed back as it came. */
  function SaveAvatarImage(imageUrl: string, userId: string): (saved: string)
    ensures saved == imageUrl
  {
    imageUrl
  }
}
