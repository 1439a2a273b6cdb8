# Telegram image bot: job correlation, and `my_factorial`

This project models two independent pieces of the repository and proves
properties of them in Dafny.

**The bot (bot.js).** A chat command (`/imagine <prompt>`) or a button press
sends a request to the image-generation service. The service answers with a
job hash. The bot stores the hash in `pendingTasks`, together with the chat
and the placeholder message. Later the service calls `/webhook` with the
hash and a status:

- `done`: download the image, record the job in the user's history
  (`userTasks`), delete the placeholder, send the photo with an 11-button
  keyboard, then forget the hash.
- `error`: edit the placeholder to show the reason, then forget the hash.
- `progress`: edit the placeholder to show the percentage, and keep the hash.

`/status` reports how many hashes are pending, or whether one hash is
pending.

The two maps are fields of the class `TaskBot.Bot`. The handlers are its
methods. Telegram, the generation service and the file system are not
modelled. Every call to Telegram and every request to the generation
service is appended to an effect log (`effects`). The image download and
the file-system steps (writing, reading and deleting the temporary file) are
not logged: they appear only as success/failure inputs. Whether each awaited
call succeeds or throws is a parameter of the handler, so the contracts also
say what state is left behind when a call throws. The pure pieces are functions in `Messages` (texts, caption,
keyboard, callback parsing, request bodies) and in `JsText` (the JavaScript
string and number primitives they use: `trim`, `replace`, `split`,
`parseInt`, and number-to-string).

**`my_factorial` (my_math.py, and the copy in 4.py).** Each copy raises
`ValueError` for a negative argument. Otherwise it multiplies over
`range(2, n + 1)`. Each copy is a method with a loop, proved equal to a
recursive `Fact`. The 4.py copy is also proved equal to the product of the
range. A further method proves that the two copies agree on every integer.

The model follows the code in three places worth stating:

- An exception in the webhook handler is caught, and the handler answers
  HTTP 500. This includes a failed download in the `done` branch. Nothing
  is left unhandled.
- When the service rejects a request, the handler sends a new reply
  `❌ Error: …`. It does not edit the placeholder.
- A second registration under the same hash replaces the first entry.

## Model

| member | source | states |
|---|---|---|
| `TaskBot.Bot.constructor` | bot.js:76-77 | the process starts with no pending task, no history and no calls issued |
| `TaskBot.Bot.Lookup` | bot.js:89 | looking up a hash gives an entry exactly when the hash is pending, and it gives the stored entry |
| `TaskBot.Bot.RegisterTaskAndWait` | bot.js:202-226 | the entry is stored, replacing any old one, before the waiting edit. It stays stored whatever the edits do. A lookup right after returns it. The history is unchanged. The fallback edit is issued only when the waiting edit throws. Only the fallback's failure escapes to the caller |
| `TaskBot.Bot.Submit` | bot.js:332-335 | the request is sent. A rejection gives an error reply and registers nothing. An accepted request registers its hash (`undefined` when the response has none) for the placeholder message |
| `TaskBot.Bot.Imagine` | bot.js:253-281 | a prompt that is empty after trimming gets the usage reply and changes no map. Otherwise a job is registered exactly when the placeholder was sent and the service accepted the request. The history never changes |
| `TaskBot.Bot.ImagineWithPrompt` | bot.js:257-280 | the same, stated for the prompt once it has been extracted: the usage reply for an empty prompt, and otherwise the placeholder, then the request and the registration unless a step throws |
| `TaskBot.Bot.CallbackQuery` | bot.js:307-340 | a job is registered exactly when answering the callback, sending the placeholder and sending the request (built from the callback data) all succeed. The history never changes |
| `TaskBot.Bot.Status` | bot.js:284-304 | issues one reply, computed from the pending hashes. It can change nothing but the effect log |
| `TaskBot.Bot.Webhook` | bot.js:83-184 | unknown hash: 200, and nothing changes. `done`: no result or a failed download gives 500 and no change. Otherwise the history entry is written, then Delete and SendPhoto are issued, and the hash is forgotten only if every later step succeeds (else 500). `error`: the placeholder edit is issued and the hash is forgotten only if the edit succeeds. `progress`: the edit is issued and the registry is untouched. Any other status: 200, no change. No entry is ever added or replaced; only the notified hash can leave |
| `TaskBot.JobLifecycle` | bot.js:89-176 | register, then `progress` (hash kept), then `done` (hash forgotten, history written, photo sent), then a late `error` for the same hash, which is acknowledged as unknown. Gives the exact final maps and call log |
| `Messages.ErrorTextReason` | bot.js:162 | the error text is the prefix followed by the reason when the reason is truthy, and by `Unknown error` otherwise |
| `Messages.ProgressPercent` | bot.js:170-175 | the progress text starts with the job kind, or `task` when the kind is falsy. ` - N%...` follows exactly when the percentage is present and non-zero (N printed in decimal, and `parseInt` reads N back); otherwise only `...` follows |
| `Messages.CaptionSplit` | bot.js:119-121 | for a prompt, type and hash without line breaks, the caption splits on line breaks into exactly the prompt line, the type line and the hash line. A multi-line prompt gives more pieces, so the condition is needed |
| `Messages.ParseCallback` | bot.js:310 | no colon in the action, hash or choice. A choice is only present when a hash is present |
| `Messages.ParseCallbackData` | bot.js:126-140 | callback data built from a colon-free action, hash and optional choice parses back to exactly those |
| `Messages.ParseCallbackPrefix` | bot.js:310 | re-encoding the parsed callback gives back the data when it has at most two colons, and a prefix of it otherwise |
| `Messages.KeyboardRoundTrip` | bot.js:123-143 | the keyboard has rows of 4, 4 and 3 buttons. For a colon-free hash, every button parses back to its action, the hash and its choice: 1-4, none for reroll, or the style name |
| `Messages.KeyboardRequests` | bot.js:320-329 | pressing Uk or Vk sends the hash, the number k and a `result` webhook. Reroll sends the hash alone with `progress`. The two styles send the hash and the style string with `progress` |
| `Messages.ImagineRequest` | bot.js:268-273 | an imagine request carries the prompt, the given webhook URL (the address the service calls back), a `progress` webhook type, the prefilter flag false, and no hash or choice |
| `Messages.ActionRequest` | bot.js:320-329 | `webhook_type` is `result` exactly for `upscale` and `variation`, and `progress` otherwise. `choice` is absent exactly when the callback's choice is falsy. It stays a string for `upsample` and is `parseInt`'d otherwise. The hash and URL are passed through |
| `Messages.ImaginePromptEmpty` | bot.js:255-259 | the prompt is empty exactly when nothing but whitespace remains after removing `/imagine` |
| `Messages.StatusReport` | bot.js:286-299 | with no argument, the reply carries the number of pending hashes (read back by `parseInt`). With a hash, the reply is the "being monitored" text exactly when the hash is pending |
| `JsText.JsString` | bot.js:120-121 | a present string prints as itself, and an absent one as `undefined` (so a job whose response has no hash is stored under the key `undefined`, and the caption shows `Type: undefined` / `Hash: undefined`) |
| `JsText.Or` | bot.js:119 | `v \|\| fallback` gives `v` when it is truthy (present and non-empty) and the fallback otherwise |
| `JsText.TrimStart` | bot.js:255 | the result is a suffix of the input, all the characters removed are whitespace, and the result does not start with whitespace |
| `JsText.TrimEnd` | bot.js:255 | the result is a prefix of the input, all the characters removed are whitespace, and the result does not end with whitespace |
| `JsText.TrimEmptyIff` | bot.js:257 | a trimmed string is empty exactly when the string is all whitespace |
| `JsText.IndexOfFrom` | bot.js:255 | finds the first occurrence of the pattern at or after the start index, or reports that there is none |
| `JsText.RemoveFirst` | bot.js:255 | `replace(pat, '')` removes the first occurrence of `pat` and leaves a string without one unchanged |
| `JsText.Split` | bot.js:310 | `split` gives at least one piece, and no piece contains the separator |
| `JsText.SplitJoin` | bot.js:310 | splitting the join of separator-free pieces gives back the pieces |
| `JsText.JoinSplit` | bot.js:310 | joining the pieces of a split gives back the string |
| `JsText.ParseNumberString` | bot.js:170 | `parseInt` reads back a printed integer when it is followed by anything other than a digit or `x` |
| `JsText.ParseIntRoundTrip` | bot.js:328 | `parseInt(String(n)) === n` for every integer n |
| `Factorial.Fact` | my_math.py:5-12 | every factorial is at least 1 |
| `Factorial.RangeProductFact` | my_math.py:8-10 | `(lo-1)!` times the product of `range(lo, hi)` is `(hi-1)!` |
| `Factorial.FactIsProduct` | my_math.py:8-10 | `n!` is the product of `range(1, n + 1)`, and for n ≥ 1 also of `range(2, n + 1)`, the range the loop runs over |
| `Factorial.RangeProductSplit` | 4.py:9-10 | the product over a range is the product over its two halves |
| `MyMath.MyFactorial` | my_math.py:1-12 | a negative k raises `ValueError` with its message. Otherwise the result is `Fact(k)`, so 0 and 1 give 1. The loop keeps `result == (i-1)!` |
| `MyMath.Recurrence` | my_math.py:8-12 | for k ≥ 1 both calls return, `my_factorial(k) == k * my_factorial(k-1)`, and the result is at least 1 |
| `FourPy.MyFactorial` | 4.py:1-12 | a negative n raises `ValueError`. Otherwise the result is `Fact(n)`. The loop keeps `result` equal both to the product of `range(2, i)` and to `(i-1)!` |
| `FourPy.AgreesWithMyMath` | 4.py:1-12 | on every integer the two copies give the same outcome, raising or returning alike, and that outcome is `ValueError` or `Fact(n)` |

## Left out

- The Telegram transport, axios, express and the file system are left out. Their calls appear only as entries of the effect log, or as success/failure inputs. The image download, the temporary file, `createReadStream` and `unlinkSync` are reduced to whether each step succeeds. `createReadStream` is taken not to throw.
- The webhook URL from `getPublicUrl` is a parameter. The API key, endpoints' host, the listening port and the startup wiring are left out.
- Interleaving at `await` points is left out: each handler is one atomic step. In the process, another handler can run while one is suspended. For example, the `done` branch deletes whatever entry is under the hash at bot.js:154, even if that hash was registered again during the download.
- JavaScript object keys inherited from the prototype (a hash such as `constructor` or `__proto__`) are treated like any other absent key. In the process such a lookup finds a truthy value.
- Webhook fields are modelled as strings or absent. A hash, status, type or prompt of another JSON type (number, object, null) is not modelled. `progress` is an integer: fractional percentages and exponent notation at 1e21 and above are not modelled.
- `parseInt` is modelled on unbounded integers. It does not lose precision above 2^53, and `-0` is 0.
- Logging (`console.log`, `console.error`, the DEBUG switch) is left out.
- The `/start`, `/help` and plain-text replies are left out (static text). So are `bot.catch`, `bot.launch` and the signal handlers.
- The replies sent from the `catch` blocks, and the `/status` replies (bot.js:291, 296, 298), are not awaited. The log records them as issued; their own failure is not modelled.
- Callback queries without `data` are not modelled: the model's callback data is always a string. In the process, `split` on missing data throws before the callback is answered, and only the error reply is sent. The bot's own keyboard always sets the data.
- The usage reply to an empty `/imagine` is returned, not awaited inside the `try`. Its failure goes to `bot.catch` and changes no state, so it is not modelled.
- main.py and the input/print driver of 4.py (lines 15-20) are left out. The model's `my_factorial` takes integers only: Python floats, booleans and other argument types are not modelled.
