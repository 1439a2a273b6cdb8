/**
 * The bot's process-wide state and the handlers that change it.
 *
 * `pendingTasks` maps a job hash to the chat message to update when the
 * generation service reports on that job; `userTasks` maps a user id to the
 * jobs of that user that finished. The transport (Telegram), the generation
 * service and the file system are outside the model: every call to Telegram
 * and every request to the generation service is appended to `effects`; the
 * image download and the temporary-file steps are not logged and appear only
 * as success flags of `WebhookIo`. Whether an awaited call succeeds or throws
 * is an input of the handler (`Io`, `WebhookIo`, `SubmitIo`). Each handler
 * runs as one atomic step.
 */
module TaskBot {
  import opened JsText
  import opened Messages

  /** `ctx.chat.id` and `ctx.from.id` of the update that started a job. */
  datatype Ctx = Ctx(chatId: int, userId: int)

  /** `pendingTasks[hash]`: the context and placeholder message of a job in flight. */
  datatype PendingTask = PendingTask(ctx: Ctx, messageId: int)

  /** `userTasks[userId][hash]`: a finished job. */
  datatype TaskRecord = TaskRecord(kind: Option<string>, imageUrl: Option<string>, prompt: Option<string>)

  /** The `result` object of a notification. */
  datatype WebhookResult = WebhookResult(url: Option<string>)

  /** The JSON body of a webhook call; absent fields are `None`. */
  datatype Notification = Notification(
    hash: Option<string>,
    status: Option<string>,
    result: Option<WebhookResult>,
    kind: Option<string>,
    prompt: Option<string>,
    statusReason: Option<string>,
    progress: Option<int>)

  /** A call the bot issues to the chat transport or to the generation service. */
  datatype Effect =
    | Reply(chat: int, text: string)
    | Edit(chat: int, message: int, text: string)
    | Delete(chat: int, message: int)
    | SendPhoto(chat: int, caption: string, keyboard: seq<seq<Button>>)
    | AnswerCallback(text: string)
    | ApiCall(endpoint: string, request: Request)

  /** How an awaited call ends. */
  datatype Io = Ok | Throws(message: string)

  /** How each awaited step of the webhook handler ends (true: it succeeds). */
  datatype WebhookIo = WebhookIo(download: bool, delete: bool, photo: bool, unlink: bool, edit: bool)

  /** The generation service either accepts a request (its body carries the new hash) or fails. */
  datatype ApiOutcome = Accepted(hash: Option<string>) | Rejected(message: string)

  /** How each awaited step of a job submission ends. */
  datatype SubmitIo = SubmitIo(
    answer: Io,
    processing: Io,
    processingMessageId: int,
    api: ApiOutcome,
    waitingEdit: Io,
    fallbackEdit: Io)

  /** The property name a hash is stored under: `undefined` when it is missing. */
  function Key(hash: Option<string>): string
  {
    JsString(hash)
  }

  /** `userTasks[userId] || {}`. */
  function History(userTasks: map<int, map<string, TaskRecord>>, userId: int): map<string, TaskRecord>
  {
    if userId in userTasks then userTasks[userId] else map[]
  }

  /** Calls issued by `registerTaskAndWait`: the waiting edit, and the fallback edit if that throws. */
  function RegisterEffects(hash: Option<string>, task: PendingTask, waitingEdit: Io): seq<Effect>
  {
    [Edit(task.ctx.chatId, task.messageId, WaitingText(hash))]
    + if waitingEdit.Throws? then
        [Edit(task.ctx.chatId, task.messageId, RegisterErrorText(waitingEdit.message))]
      else []
  }

  /** What escapes `registerTaskAndWait`: the fallback edit's failure, when both edits throw. */
  function RegisterFailure(waitingEdit: Io, fallbackEdit: Io): Option<string>
  {
    if waitingEdit.Throws? && fallbackEdit.Throws? then Some(fallbackEdit.message) else None
  }

  /** Calls issued from the API request on: the request, then either the error reply or the registration. */
  function SubmitEffects(ctx: Ctx, endpoint: string, request: Request, io: SubmitIo): seq<Effect>
  {
    [ApiCall(endpoint, request)]
    + match io.api
      case Rejected(m) => [Reply(ctx.chatId, HandlerErrorText(m))]
      case Accepted(h) =>
        RegisterEffects(h, PendingTask(ctx, io.processingMessageId), io.waitingEdit)
        + match RegisterFailure(io.waitingEdit, io.fallbackEdit)
          case None => []
          case Some(m) => [Reply(ctx.chatId, HandlerErrorText(m))]
  }

  /** Calls issued by the `/imagine` handler once the prompt has been extracted from the message. */
  function ImagineEffects(ctx: Ctx, prompt: string, webhookUrl: string, io: SubmitIo): seq<Effect>
  {
    if prompt == [] then [Reply(ctx.chatId, ImagineUsage)]
    else
      [Reply(ctx.chatId, ImagineProcessing)]
      + if io.processing.Throws? then [Reply(ctx.chatId, HandlerErrorText(io.processing.message))]
        else SubmitEffects(ctx, ImagineEndpoint, ImagineRequest(prompt, webhookUrl), io)
  }

  /** Calls issued by the button-callback handler. */
  function CallbackEffects(ctx: Ctx, data: string, webhookUrl: string, io: SubmitIo): seq<Effect>
  {
    var cb := ParseCallback(data);
    [AnswerCallback(CallbackAnswer)]
    + if io.answer.Throws? then [Reply(ctx.chatId, HandlerErrorText(io.answer.message))]
      else
        [Reply(ctx.chatId, CallbackProcessing)]
        + if io.processing.Throws? then [Reply(ctx.chatId, HandlerErrorText(io.processing.message))]
          else SubmitEffects(ctx, ActionEndpoint(cb.action), ActionRequest(cb, webhookUrl), io)
  }

  class Bot {
    var pendingTasks: map<string, PendingTask>
    var userTasks: map<int, map<string, TaskRecord>>
    var effects: seq<Effect>

    constructor ()
      ensures pendingTasks == map[] && userTasks == map[] && effects == []
    {
      pendingTasks := map[];
      userTasks := map[];
      effects := [];
    }

    /** `pendingTasks[hash]`. */
    function Lookup(hash: string): (r: Option<PendingTask>)
      reads this
      ensures r.Some? <==> hash in pendingTasks
      ensures r.Some? ==> r.value == pendingTasks[hash]
    {
      if hash in pendingTasks then Some(pendingTasks[hash]) else None
    }

    /**
     * `registerTaskAndWait`: the entry is stored first (replacing any entry
     * under the same hash), so it stays even when the edits that follow throw.
     */
    method RegisterTaskAndWait(hash: Option<string>, ctx: Ctx, messageId: int, waitingEdit: Io, fallbackEdit: Io)
      returns (failure: Option<string>)
      modifies this
      ensures pendingTasks == old(pendingTasks)[Key(hash) := PendingTask(ctx, messageId)]
      ensures Lookup(Key(hash)) == Some(PendingTask(ctx, messageId))
      ensures userTasks == old(userTasks)
      ensures effects == old(effects) + RegisterEffects(hash, PendingTask(ctx, messageId), waitingEdit)
      ensures failure == RegisterFailure(waitingEdit, fallbackEdit)
    {
      pendingTasks := pendingTasks[Key(hash) := PendingTask(ctx, messageId)];
      effects := effects + [Edit(ctx.chatId, messageId, WaitingText(hash))];
      failure := None;
      if waitingEdit.Throws? {
        effects := effects + [Edit(ctx.chatId, messageId, RegisterErrorText(waitingEdit.message))];
        if fallbackEdit.Throws? {
          failure := Some(fallbackEdit.message);
        }
      }
    }

    /** The common tail of both submission handlers: send the request, register the job it creates. */
    method Submit(ctx: Ctx, endpoint: string, request: Request, io: SubmitIo)
      modifies this
      ensures pendingTasks ==
        if io.api.Accepted? then old(pendingTasks)[Key(io.api.hash) := PendingTask(ctx, io.processingMessageId)]
        else old(pendingTasks)
      ensures userTasks == old(userTasks)
      ensures effects == old(effects) + SubmitEffects(ctx, endpoint, request, io)
    {
      effects := effects + [ApiCall(endpoint, request)];
      match io.api {
        case Rejected(m) =>
          effects := effects + [Reply(ctx.chatId, HandlerErrorText(m))];
        case Accepted(h) =>
          var failure := RegisterTaskAndWait(h, ctx, io.processingMessageId, io.waitingEdit, io.fallbackEdit);
          if failure.Some? {
            effects := effects + [Reply(ctx.chatId, HandlerErrorText(failure.value))];
          }
      }
    }

    /**
     * The `/imagine` handler. An empty prompt (after removing the command and
     * trimming) gets the usage reply and registers nothing; otherwise a job is
     * registered exactly when the placeholder was sent and the service
     * accepted the request.
     */
    method Imagine(ctx: Ctx, text: string, webhookUrl: string, io: SubmitIo)
      modifies this
      ensures ImaginePrompt(text) == [] ==>
        pendingTasks == old(pendingTasks) && effects == old(effects) + [Reply(ctx.chatId, ImagineUsage)]
      ensures pendingTasks ==
        if ImaginePrompt(text) != [] && io.processing.Ok? && io.api.Accepted? then
          old(pendingTasks)[Key(io.api.hash) := PendingTask(ctx, io.processingMessageId)]
        else old(pendingTasks)
      ensures userTasks == old(userTasks)
      ensures effects == old(effects) + ImagineEffects(ctx, ImaginePrompt(text), webhookUrl, io)
    {
      var prompt := ImaginePrompt(text);
      ImagineWithPrompt(ctx, prompt, webhookUrl, io);
    }

    /** The `/imagine` handler from the extracted prompt on. */
    method ImagineWithPrompt(ctx: Ctx, prompt: string, webhookUrl: string, io: SubmitIo)
      modifies this
      ensures prompt == [] ==>
        pendingTasks == old(pendingTasks) && effects == old(effects) + [Reply(ctx.chatId, ImagineUsage)]
      ensures pendingTasks ==
        if prompt != [] && io.processing.Ok? && io.api.Accepted? then
          old(pendingTasks)[Key(io.api.hash) := PendingTask(ctx, io.processingMessageId)]
        else old(pendingTasks)
      ensures userTasks == old(userTasks)
      ensures effects == old(effects) + ImagineEffects(ctx, prompt, webhookUrl, io)
    {
      if prompt == [] {
        effects := effects + [Reply(ctx.chatId, ImagineUsage)];
        return;
      }
      var placeholder := [Reply(ctx.chatId, ImagineProcessing)];
      effects := effects + placeholder;
      if io.processing.Throws? {
        effects := effects + [Reply(ctx.chatId, HandlerErrorText(io.processing.message))];
        return;
      }
      var request := ImagineRequest(prompt, webhookUrl);
      assert ImagineEffects(ctx, prompt, webhookUrl, io) == placeholder + SubmitEffects(ctx, ImagineEndpoint, request, io);
      Submit(ctx, ImagineEndpoint, request, io);
    }

    /**
     * The button-callback handler: the request is built from the callback
     * data; a job is registered exactly when answering the callback, sending
     * the placeholder and the request all succeeded.
     */
    method CallbackQuery(ctx: Ctx, data: string, webhookUrl: string, io: SubmitIo)
      modifies this
      ensures pendingTasks ==
        if io.answer.Ok? && io.processing.Ok? && io.api.Accepted? then
          old(pendingTasks)[Key(io.api.hash) := PendingTask(ctx, io.processingMessageId)]
        else old(pendingTasks)
      ensures userTasks == old(userTasks)
      ensures effects == old(effects) + CallbackEffects(ctx, data, webhookUrl, io)
    {
      var cb := ParseCallback(data);
      effects := effects + [AnswerCallback(CallbackAnswer)];
      if io.answer.Throws? {
        effects := effects + [Reply(ctx.chatId, HandlerErrorText(io.answer.message))];
        return;
      }
      effects := effects + [Reply(ctx.chatId, CallbackProcessing)];
      if io.processing.Throws? {
        effects := effects + [Reply(ctx.chatId, HandlerErrorText(io.processing.message))];
        return;
      }
      Submit(ctx, ActionEndpoint(cb.action), ActionRequest(cb, webhookUrl), io);
    }

    /** The `/status` handler only replies: it reads `pendingTasks` and changes neither map. */
    method Status(ctx: Ctx, text: string)
      modifies this`effects
      ensures effects == old(effects) + [Reply(ctx.chatId, StatusText(text, pendingTasks.Keys))]
    {
      effects := effects + [Reply(ctx.chatId, StatusText(text, pendingTasks.Keys))];
    }

    /**
     * The `/webhook` handler; returns the HTTP status. An unknown hash is
     * acknowledged and changes nothing. `done` downloads the image, records
     * the job in the user's history, deletes the placeholder, sends the photo
     * with its keyboard and only then forgets the hash; `error` edits the
     * placeholder and forgets the hash; `progress` edits the placeholder and
     * keeps the hash; any other status changes nothing. A step that throws
     * ends the handler with 500, leaving whatever was already changed.
     */
    method Webhook(n: Notification, io: WebhookIo) returns (httpStatus: int)
      modifies this
      ensures Key(n.hash) !in old(pendingTasks) ==>
        && httpStatus == 200
        && pendingTasks == old(pendingTasks) && userTasks == old(userTasks) && effects == old(effects)
      ensures Key(n.hash) in old(pendingTasks) && n.status == Some("done") ==>
        var key, t := Key(n.hash), old(pendingTasks)[Key(n.hash)];
        if n.result.None? || !io.download then
          && httpStatus == 500
          && pendingTasks == old(pendingTasks) && userTasks == old(userTasks) && effects == old(effects)
        else
          var finished := io.delete && io.photo && io.unlink;
          && userTasks == old(userTasks)[t.ctx.userId :=
               History(old(userTasks), t.ctx.userId)[key := TaskRecord(n.kind, n.result.value.url, n.prompt)]]
          && effects == old(effects) + [Delete(t.ctx.chatId, t.messageId)]
               + (if io.delete then [SendPhoto(t.ctx.chatId, Caption(n.prompt, n.kind, n.hash), Keyboard(key))] else [])
          && pendingTasks == (if finished then old(pendingTasks) - {key} else old(pendingTasks))
          && httpStatus == (if finished then 200 else 500)
      ensures Key(n.hash) in old(pendingTasks) && n.status == Some("error") ==>
        var key, t := Key(n.hash), old(pendingTasks)[Key(n.hash)];
        && userTasks == old(userTasks)
        && effects == old(effects) + [Edit(t.ctx.chatId, t.messageId, ErrorText(n.statusReason))]
        && pendingTasks == (if io.edit then old(pendingTasks) - {key} else old(pendingTasks))
        && httpStatus == (if io.edit then 200 else 500)
      ensures Key(n.hash) in old(pendingTasks) && n.status == Some("progress") ==>
        var t := old(pendingTasks)[Key(n.hash)];
        && pendingTasks == old(pendingTasks) && userTasks == old(userTasks)
        && effects == old(effects) + [Edit(t.ctx.chatId, t.messageId, ProgressText(n.kind, n.progress))]
        && httpStatus == (if io.edit then 200 else 500)
      ensures Key(n.hash) in old(pendingTasks)
              && n.status != Some("done") && n.status != Some("error") && n.status != Some("progress") ==>
        && httpStatus == 200
        && pendingTasks == old(pendingTasks) && userTasks == old(userTasks) && effects == old(effects)
      // only the notified hash can leave the registry; nothing is added or replaced
      ensures forall h :: h in pendingTasks ==> h in old(pendingTasks) && pendingTasks[h] == old(pendingTasks)[h]
      ensures forall h :: h in old(pendingTasks) && h != Key(n.hash) ==> h in pendingTasks
      ensures httpStatus == 200 || httpStatus == 500
    {
      var key := Key(n.hash);
      if key !in pendingTasks {
        return 200;
      }
      var task := pendingTasks[key];
      if n.status == Some("done") {
        if n.result.None? {
          // reading `result.url` of a missing result throws
          return 500;
        }
        var imageUrl := n.result.value.url;
        if !io.download {
          return 500;
        }
        var userId := task.ctx.userId;
        userTasks := userTasks[userId := History(userTasks, userId)[key := TaskRecord(n.kind, imageUrl, n.prompt)]];
        effects := effects + [Delete(task.ctx.chatId, task.messageId)];
        if !io.delete {
          return 500;
        }
        var caption := Caption(n.prompt, n.kind, n.hash);
        effects := effects + [SendPhoto(task.ctx.chatId, caption, Keyboard(key))];
        if !io.photo || !io.unlink {
          return 500;
        }
        pendingTasks := pendingTasks - {key};
      } else if n.status == Some("error") {
        effects := effects + [Edit(task.ctx.chatId, task.messageId, ErrorText(n.statusReason))];
        if !io.edit {
          return 500;
        }
        pendingTasks := pendingTasks - {key};
      } else if n.status == Some("progress") {
        effects := effects + [Edit(task.ctx.chatId, task.messageId, ProgressText(n.kind, n.progress))];
        if !io.edit {
          return 500;
        }
      }
      return 200;
    }
  }

  /**
   * One job's life: registered, a progress notification keeps it pending, a
   * `done` notification records it in the user's history and forgets it, and
   * a later `error` notification for the same hash is acknowledged as unknown.
   */
  method JobLifecycle(ctx: Ctx, hash: string, messageId: int, percent: int, url: string, prompt: string)
    returns (bot: Bot, progressStatus: int, doneStatus: int, lateStatus: int)
    ensures fresh(bot)
    ensures progressStatus == 200 && doneStatus == 200 && lateStatus == 200
    ensures bot.pendingTasks == map[]
    ensures bot.userTasks == map[ctx.userId := map[hash := TaskRecord(Some("imagine"), Some(url), Some(prompt))]]
    ensures bot.effects == [
      Edit(ctx.chatId, messageId, WaitingText(Some(hash))),
      Edit(ctx.chatId, messageId, ProgressText(Some("imagine"), Some(percent))),
      Delete(ctx.chatId, messageId),
      SendPhoto(ctx.chatId, Caption(Some(prompt), Some("imagine"), Some(hash)), Keyboard(hash))]
  {
    bot := new Bot();
    var allOk := WebhookIo(true, true, true, true, true);
    var failure := bot.RegisterTaskAndWait(Some(hash), ctx, messageId, Ok, Ok);
    progressStatus := bot.Webhook(
      Notification(Some(hash), Some("progress"), None, Some("imagine"), None, None, Some(percent)), allOk);
    assert |bot.pendingTasks| == 1;
    doneStatus := bot.Webhook(
      Notification(Some(hash), Some("done"), Some(WebhookResult(Some(url))), Some("imagine"), Some(prompt), None, None),
      allOk);
    lateStatus := bot.Webhook(
      Notification(Some(hash), Some("error"), None, None, None, Some("NSFW"), None), allOk);
  }
}
