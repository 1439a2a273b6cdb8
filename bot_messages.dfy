/**
 * The pure pieces of the bot: chat texts, the caption and inline keyboard of
 * a finished image, the parsing of button callback data, the requests sent to
 * the generation service, and the argument of a `/imagine` or `/status`
 * command.
 */
module Messages {
  import opened JsText

  // ---------------------------------------------------------------------
  // fixed texts

  const ImagineUsage: string := "Please provide a prompt. Example: /imagine a beautiful sunset over mountains"
  const ImagineProcessing: string := "🔄 Processing your request..."
  const CallbackProcessing: string := "🔄 Processing..."
  const CallbackAnswer: string := "Processing your request..."
  const ErrorPrefix: string := "❌ Error: "
  const MonitoringPrefix: string := "Currently monitoring "

  // ---------------------------------------------------------------------
  // texts built from a notification or a failure

  /** Placeholder text for an `error` notification. */
  function ErrorText(reason: Option<string>): string
  {
    ErrorPrefix + Or(reason, "Unknown error")
  }

  /** Reply sent from a command handler's `catch` block. */
  function HandlerErrorText(message: string): string
  {
    ErrorPrefix + message
  }

  /** Placeholder text once a job has been registered. */
  function WaitingText(hash: Option<string>): string
  {
    "⏳ Task submitted with ID: " + JsString(hash) + "\nWaiting for processing..."
  }

  /** Placeholder text when the waiting edit itself failed. */
  function RegisterErrorText(message: string): string
  {
    "⚠️ Error registering task: " + message
  }

  /** The part of a progress text before the optional percentage. */
  function ProgressHead(kind: Option<string>): string
  {
    "⏳ Processing " + Or(kind, "task")
  }

  /** Placeholder text for a `progress` notification; a zero or absent percentage is not shown. */
  function ProgressText(kind: Option<string>, progress: Option<int>): string
  {
    ProgressHead(kind) + PercentSuffix(progress) + "..."
  }

  /** `progress ? ` - ${progress}%` : ''`: only a present, non-zero percentage is shown. */
  function PercentSuffix(progress: Option<int>): string
  {
    if progress.Some? && progress.value != 0 then " - " + NumberString(progress.value) + "%" else ""
  }

  /** The three caption lines of a finished image. */
  function CaptionLines(prompt: Option<string>, kind: Option<string>, hash: Option<string>): seq<string>
  {
    ["✅ Generated: " + Or(prompt, "No prompt"), "Type: " + JsString(kind), "Hash: " + JsString(hash)]
  }

  /** The caption of a finished image: its three lines, each but the last ended by a line break. */
  function Caption(prompt: Option<string>, kind: Option<string>, hash: Option<string>): string
  {
    var lines := CaptionLines(prompt, kind, hash);
    lines[0] + "\n" + lines[1] + "\n" + lines[2]
  }

  /** An `error` notification shows its reason when it has one, `Unknown error` otherwise. */
  lemma ErrorTextReason(reason: Option<string>)
    ensures |ErrorText(reason)| >= |ErrorPrefix|
    ensures ErrorText(reason)[..|ErrorPrefix|] == ErrorPrefix
    ensures Truthy(reason) ==> ErrorText(reason)[|ErrorPrefix|..] == reason.value
    ensures !Truthy(reason) ==> ErrorText(reason)[|ErrorPrefix|..] == "Unknown error"
  {
  }

  /** A shown percentage is ` - `, the number, then `%...`; `parseInt` reads the number back. */
  lemma PercentTail(n: int)
    requires n != 0
    ensures var tail := PercentSuffix(Some(n)) + "...";
      |tail| >= 3 && tail[..3] == " - " && tail[3..] == NumberString(n) + "%..."
      && ParseInt(tail[3..]) == Num(n)
  {
    var rest := "%...";
    assert rest[0] == '%' && DigitOf('%') == 36;
    var pct := NumberString(n) + rest;
    var tail := PercentSuffix(Some(n)) + "...";
    assert tail == " - " + pct;
    assert tail[3..] == pct;
    ParseNumberString(n, rest);
  }

  /** In `head + tail`, the head comes first and the tail can be read off after it. */
  lemma ShownAfter(head: string, tail: string)
    requires |tail| >= 3
    ensures var r := head + tail;
      |head| + 3 <= |r| && r[..|head|] == head && r[|head|..|head| + 3] == tail[..3]
      && r[|head| + 3..] == tail[3..]
  {
  }

  /** A shown percentage follows the head of the progress text. */
  lemma ProgressShown(kind: Option<string>, n: int)
    requires n != 0
    ensures var r, head := ProgressText(kind, Some(n)), ProgressHead(kind);
      |head| + 3 <= |r| && r[..|head|] == head && r[|head|..|head| + 3] == " - "
      && r[|head| + 3..] == NumberString(n) + "%..."
      && ParseInt(r[|head| + 3..]) == Num(n)
  {
    var head, tail := ProgressHead(kind), PercentSuffix(Some(n)) + "...";
    assert ProgressText(kind, Some(n)) == head + tail;
    PercentTail(n);
    ShownAfter(head, tail);
  }

  /**
   * The progress text starts with the job kind (or `task`); the percentage
   * follows as ` - N%` exactly when it is present and non-zero, and reading
   * it back with `parseInt` gives N; the text always ends in `...`.
   */
  lemma ProgressPercent(kind: Option<string>, progress: Option<int>)
    ensures var r, head := ProgressText(kind, progress), ProgressHead(kind);
      && |head| <= |r| && r[..|head|] == head
      && (progress.Some? && progress.value != 0 ==>
            |head| + 3 <= |r| && r[|head|..|head| + 3] == " - "
            && r[|head| + 3..] == NumberString(progress.value) + "%..."
            && ParseInt(r[|head| + 3..]) == Num(progress.value))
      && (!(progress.Some? && progress.value != 0) ==> r == head + "...")
  {
    if progress.Some? && progress.value != 0 {
      ProgressShown(kind, progress.value);
    } else {
      var head := ProgressHead(kind);
      assert PercentSuffix(progress) == "";
      assert ProgressText(kind, progress) == head + "...";
      assert (head + "...")[..|head|] == head;
    }
  }

  /** The caption splits on line breaks into the prompt, kind and hash lines. */
  lemma CaptionSplit(prompt: Option<string>, kind: Option<string>, hash: Option<string>)
    requires forall i :: 0 <= i < 3 ==> '\n' !in CaptionLines(prompt, kind, hash)[i]
    ensures Split(Caption(prompt, kind, hash), '\n') == CaptionLines(prompt, kind, hash)
  {
    var lines := CaptionLines(prompt, kind, hash);
    var a, b, c := lines[0], lines[1], lines[2];
    assert '\n' !in a && '\n' !in b && '\n' !in c;
    SplitJoinThree(a, b, c, '\n');
    assert lines == [a, b, c];
  }

  // ---------------------------------------------------------------------
  // the inline keyboard and its callback data

  datatype Button = Button(text: string, callbackData: string)

  /** `action:hash:choice`, or `action:hash` without a choice. */
  function CallbackData(action: string, hash: string, choice: Option<string>): string
  {
    action + ":" + hash + (if choice.Some? then ":" + choice.value else "")
  }

  /** The keyboard sent under a finished image: U1-U4, V1-V4, then reroll and the two upsample styles. */
  function Keyboard(hash: string): seq<seq<Button>>
  {
    [
      [ Button("U1", CallbackData("upscale", hash, Some("1"))),
        Button("U2", CallbackData("upscale", hash, Some("2"))),
        Button("U3", CallbackData("upscale", hash, Some("3"))),
        Button("U4", CallbackData("upscale", hash, Some("4"))) ],
      [ Button("V1", CallbackData("variation", hash, Some("1"))),
        Button("V2", CallbackData("variation", hash, Some("2"))),
        Button("V3", CallbackData("variation", hash, Some("3"))),
        Button("V4", CallbackData("variation", hash, Some("4"))) ],
      [ Button("🔄 Reroll", CallbackData("reroll", hash, None)),
        Button("2x Subtle", CallbackData("upsample", hash, Some("v6_2x_subtle"))),
        Button("2x Creative", CallbackData("upsample", hash, Some("v6_2x_creative"))) ]
    ]
  }

  /** `const [action, hash, choice] = data.split(':')`; missing elements are `undefined`. */
  datatype Callback = Callback(action: string, hash: Option<string>, choice: Option<string>)

  function ParseCallback(data: string): (cb: Callback)
    ensures ':' !in cb.action
    ensures cb.hash.Some? ==> ':' !in cb.hash.value
    ensures cb.choice.Some? ==> cb.hash.Some? && ':' !in cb.choice.value
  {
    var parts := Split(data, ':');
    Callback(parts[0],
             if |parts| > 1 then Some(parts[1]) else None,
             if |parts| > 2 then Some(parts[2]) else None)
  }

  /** Parsing what `CallbackData` built gives back its action, hash and choice. */
  lemma ParseCallbackData(action: string, hash: string, choice: Option<string>)
    requires ':' !in action && ':' !in hash
    requires choice.Some? ==> ':' !in choice.value
    ensures ParseCallback(CallbackData(action, hash, choice)) == Callback(action, Some(hash), choice)
  {
    var parts := if choice.Some? then [action, hash, choice.value] else [action, hash];
    if choice.Some? {
      JoinThree(parts, ':');
    } else {
      assert Join(parts, ':') == action + [':'] + hash;
    }
    assert Join(parts, ':') == CallbackData(action, hash, choice);
    SplitJoin(parts, ':');
  }

  /**
   * Parsing and re-encoding: data without a colon is all action; otherwise
   * the re-encoded callback is a prefix of the data, and all of it when the
   * data has at most two colons.
   */
  lemma ParseCallbackPrefix(data: string)
    ensures var cb := ParseCallback(data);
      && (cb.hash.None? ==> data == cb.action)
      && (cb.hash.Some? ==> var e := CallbackData(cb.action, cb.hash.value, cb.choice);
            |e| <= |data| && data[..|e|] == e
            && (|Split(data, ':')| <= 3 ==> e == data))
  {
    var parts := Split(data, ':');
    var cb := ParseCallback(data);
    JoinSplit(data, ':');
    if |parts| >= 2 {
      var e := CallbackData(cb.action, cb.hash.value, cb.choice);
      if |parts| == 2 {
        assert Join(parts, ':') == parts[0] + [':'] + parts[1];
      } else {
        var tail := parts[2..];
        assert Join(parts, ':') == parts[0] + [':'] + (parts[1] + [':'] + Join(tail, ':'));
        assert Join(tail, ':') == parts[2] + (if |tail| == 1 then [] else [':'] + Join(tail[1..], ':'));
        assert data == e + (if |tail| == 1 then [] else [':'] + Join(tail[1..], ':'));
      }
    }
  }

  /**
   * For a hash without a colon, every button of the keyboard parses back to
   * its action, the original hash and its choice: 1-4 on the upscale and
   * variation rows, none for reroll, a style name for the two upsamples.
   */
  lemma KeyboardRoundTrip(hash: string)
    requires ':' !in hash
    ensures var k := Keyboard(hash);
      && |k| == 3 && |k[0]| == 4 && |k[1]| == 4 && |k[2]| == 3
      && (forall c :: 0 <= c < 4 ==>
            ParseCallback(k[0][c].callbackData) == Callback("upscale", Some(hash), Some(NumberString(c + 1))))
      && (forall c :: 0 <= c < 4 ==>
            ParseCallback(k[1][c].callbackData) == Callback("variation", Some(hash), Some(NumberString(c + 1))))
      && ParseCallback(k[2][0].callbackData) == Callback("reroll", Some(hash), None)
      && ParseCallback(k[2][1].callbackData) == Callback("upsample", Some(hash), Some("v6_2x_subtle"))
      && ParseCallback(k[2][2].callbackData) == Callback("upsample", Some(hash), Some("v6_2x_creative"))
  {
    var k: seq<seq<Button>> := Keyboard(hash);
    forall c: int | 0 <= c < 4
      ensures ParseCallback(k[0][c].callbackData) == Callback("upscale", Some(hash), Some(NumberString(c + 1)))
      ensures ParseCallback(k[1][c].callbackData) == Callback("variation", Some(hash), Some(NumberString(c + 1)))
    {
      var d := NumberString(c + 1);
      assert d == [DigitChar(c + 1)];
      ParseCallbackData("upscale", hash, Some(d));
      ParseCallbackData("variation", hash, Some(d));
    }
    ParseCallbackData("reroll", hash, None);
    ParseCallbackData("upsample", hash, Some("v6_2x_subtle"));
    ParseCallbackData("upsample", hash, Some("v6_2x_creative"));
  }

  // ---------------------------------------------------------------------
  // requests to the generation service

  /** The `choice` field: the raw string for upsample, `parseInt` of it otherwise. */
  datatype Choice = Text(text: string) | Number(number: JsNumber)

  /** The JSON body of a request; absent fields are `None`. */
  datatype Request = Request(
    prompt: Option<string>,
    hash: Option<string>,
    webhookUrl: string,
    webhookType: string,
    choice: Option<Choice>,
    isDisablePrefilter: Option<bool>)

  const ImagineEndpoint: string := "/midjourney/v2/imagine"

  function ActionEndpoint(action: string): string
  {
    "/midjourney/v2/" + action
  }

  /** The body of an `/imagine` request: always a `progress` webhook and the prefilter left on. */
  function ImagineRequest(prompt: string, webhookUrl: string): (r: Request)
    ensures r.prompt == Some(prompt) && r.hash.None? && r.choice.None?
    ensures r.webhookType == "progress" && r.isDisablePrefilter == Some(false)
    ensures r.webhookUrl == webhookUrl
  {
    Request(Some(prompt), None, webhookUrl, "progress", None, Some(false))
  }

  /** The body of a follow-up request built from a button's callback. */
  function ActionRequest(cb: Callback, webhookUrl: string): (r: Request)
    ensures r.hash == cb.hash && r.webhookUrl == webhookUrl
    ensures r.prompt.None? && r.isDisablePrefilter.None?
    ensures r.webhookType == "result" || r.webhookType == "progress"
    ensures r.webhookType == "result" <==> cb.action == "upscale" || cb.action == "variation"
    ensures r.choice.None? <==> !Truthy(cb.choice)
    ensures Truthy(cb.choice) && cb.action == "upsample" ==> r.choice == Some(Text(cb.choice.value))
    ensures Truthy(cb.choice) && cb.action != "upsample" ==> r.choice == Some(Number(ParseInt(cb.choice.value)))
  {
    var webhookType := if cb.action == "upscale" || cb.action == "variation" then "result" else "progress";
    var choice :=
      if Truthy(cb.choice) then
        Some(if cb.action == "upsample" then Text(cb.choice.value) else Number(ParseInt(cb.choice.value)))
      else None;
    Request(None, cb.hash, webhookUrl, webhookType, choice, None)
  }

  /**
   * Pressing a keyboard button sends: for Uk and Vk the hash, the number k
   * and a `result` webhook; for reroll the hash alone with a `progress`
   * webhook; for the two styles the hash, the style name and a `progress`
   * webhook.
   */
  lemma KeyboardRequests(hash: string, webhookUrl: string)
    requires ':' !in hash
    ensures var k := Keyboard(hash);
      && (forall row, c :: 0 <= row < 2 && 0 <= c < 4 ==>
            ActionRequest(ParseCallback(k[row][c].callbackData), webhookUrl)
              == Request(None, Some(hash), webhookUrl, "result", Some(Number(Num(c + 1))), None))
      && ActionRequest(ParseCallback(k[2][0].callbackData), webhookUrl)
           == Request(None, Some(hash), webhookUrl, "progress", None, None)
      && ActionRequest(ParseCallback(k[2][1].callbackData), webhookUrl)
           == Request(None, Some(hash), webhookUrl, "progress", Some(Text("v6_2x_subtle")), None)
      && ActionRequest(ParseCallback(k[2][2].callbackData), webhookUrl)
           == Request(None, Some(hash), webhookUrl, "progress", Some(Text("v6_2x_creative")), None)
  {
    var k: seq<seq<Button>> := Keyboard(hash);
    KeyboardRoundTrip(hash);
    forall row: int, c: int | 0 <= row < 2 && 0 <= c < 4
      ensures ActionRequest(ParseCallback(k[row][c].callbackData), webhookUrl)
                == Request(None, Some(hash), webhookUrl, "result", Some(Number(Num(c + 1))), None)
    {
      var cb := ParseCallback(k[row][c].callbackData);
      assert cb == Callback(if row == 0 then "upscale" else "variation", Some(hash), Some(NumberString(c + 1)));
      ParseIntRoundTrip(c + 1);
    }
  }

  // ---------------------------------------------------------------------
  // command arguments

  /** `ctx.message.text.replace(command, '').trim()`. */
  function CommandArgument(text: string, command: string): string
  {
    Trim(RemoveFirst(text, command))
  }

  function ImaginePrompt(text: string): string
  {
    CommandArgument(text, "/imagine")
  }

  /** The `/imagine` prompt is empty exactly when nothing but whitespace is left once the command is removed. */
  lemma ImaginePromptEmpty(text: string)
    ensures ImaginePrompt(text) == [] <==>
      forall i :: 0 <= i < |RemoveFirst(text, "/imagine")| ==> IsWhitespace(RemoveFirst(text, "/imagine")[i])
  {
    TrimEmptyIff(RemoveFirst(text, "/imagine"));
  }

  /** The text of the `/status` reply, given the hashes currently pending. */
  function StatusText(text: string, pending: set<string>): string
  {
    StatusReply(CommandArgument(text, "/status"), pending)
  }

  function MonitoredText(hash: string): string
  {
    "Task " + hash + " is being monitored. Waiting for webhook notifications."
  }

  function StatusReply(hash: string, pending: set<string>): string
  {
    if hash == [] then
      MonitoringPrefix + NumberString(|pending|) + " tasks." + " Please wait for webhook notifications."
    else if hash in pending then
      MonitoredText(hash)
    else
      "Task " + hash + " is not currently being monitored. It may be completed or never started."
  }

  /**
   * `/status` without an argument reports how many tasks are pending (the
   * number reads back with `parseInt`); with a hash it reports whether that
   * hash is pending, and the two answers are different texts.
   */
  lemma StatusReport(hash: string, pending: set<string>)
    ensures var r := StatusReply(hash, pending);
      && (hash == [] ==>
            |MonitoringPrefix| <= |r| && r[..|MonitoringPrefix|] == MonitoringPrefix
            && ParseInt(r[|MonitoringPrefix|..]) == Num(|pending|))
      && (hash != [] ==> (r == MonitoredText(hash) <==> hash in pending))
  {
    var r := StatusReply(hash, pending);
    if hash == [] {
      var tail := " tasks." + " Please wait for webhook notifications.";
      assert tail[0] == ' ' && DigitOf(' ') == 36;
      assert r == MonitoringPrefix + (NumberString(|pending|) + tail);
      ParseNumberString(|pending|, tail);
    } else if hash !in pending {
      var q := "Task " + hash;
      var yes := " is being monitored. Waiting for webhook notifications.";
      var no := " is not currently being monitored. It may be completed or never started.";
      assert MonitoredText(hash) == q + yes && r == q + no;
      assert |yes| != |no|;
    }
  }
}
