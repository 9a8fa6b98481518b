# gcp-line: a LINE bot that starts, stops and resizes a Minecraft server on Compute Engine

This project models the request logic of the bot's Cloud Function in Dafny.
A LINE webhook carries one chat message. The handler does four things:

- it checks the message signature;
- it checks the sender against an allow-list;
- it matches the text against four Japanese command keywords;
- it starts, stops or resizes the one instance that hosts the game, then replies in the chat.

The model has five modules.

- `Wrappers`: `Option`.
- `Text`: the Python string operations the code relies on. These are `str.rfind` for one character, the slice `s[s.rfind(c) + 1:]`, `str.endswith`, and `str.format` with one positional argument.
- `Config`: the constants of `config.py`, with lemmas about them. These cover the tier table, the separators in the machine-type paths, the keywords, the reply keys and the reply template.
- `Server`: the class `MineCraftServer`. It keeps the fetched instance resource (`instance`, with its `status` and `machineType`) and a log of the provider calls it issues (`calls`). `start` and `stop` call the provider only from `TERMINATED` and `RUNNING` respectively. `scale` works only on a `TERMINATED` instance: it rewrites `machineType` in place and sends an update, unless the path already ends with the target type. The functions `AfterScale` and `ScaleCalls` state what `scale` does, and lemmas about them give the guard, the target reached and idempotence.
- `Gateway`: the class `LineMineCraft` and the entry point `line` (method `Line`). `LineMineCraft` keeps a log of the replies it sends (`replies`). `Line` takes the request fields, the instance resource the provider's `get` returned, and the signing function. It returns the provider calls issued, the replies sent, and whether the handler returned or raised. Its postcondition is the whole table of outcomes.

Python exceptions the handler raises itself are modelled as `Outcome` values. These are a `KeyError` for a key that `DICTIONARY` lacks, and a failure of `str.format`. `DICTIONARY[key]` is the partial lookup `Lookup`. A reply whose text raises is never sent.

## Behaviour as written

The model follows `main.py` where it differs from what the bot evidently means to do:

- `MineCraftServer.stop` issues the stop call but leaves the cached `status` at `RUNNING` (main.py:47-53). The gateway's stop on a non-default tier then calls `scale(False)` (main.py:135-136). That call still sees `RUNNING`, so it is refused and issues no update. Its reply key `"alreadyStarted!"` is not in `DICTIONARY`, so the handler raises `KeyError` after the "stopped" reply. The automatic downgrade never takes place.
- Three keys looked up in `main.py` are not in `DICTIONARY` (config.py:15-28). These are `"NotAuthorized"` (main.py:101), `"alreadyStopped!"` (main.py:138) and `"alreadyStarted!"` (main.py:146). The table holds `"notAuthorized"`, `"alreadyStopped"` and `"alreadyStarted"` instead. As a result:
  - a bad signature raises `KeyError` and sends no reply;
  - a refused stop raises `KeyError` and sends no reply;
  - a refused resize raises `KeyError` and sends no reply.
- A refused resize asks for the "already started" wording, even when the resize was a scale-down.
- `USER_IDS` holds two empty strings, as in `config.py`. `PROJECT`, `ZONE`, `INSTANCE_NAME` and the credentials are empty strings too. As a result, `MACHINE_TYPE_SUFFIX` is `"zones//machineTypes/"`.

## Model

| member | source | states |
|---|---|---|
| `Text.RFind` | main.py:73 | `rfind` of a character: the index holds the character and no later index does, or -1 when the character is absent |
| `Text.EndsWith` | main.py:60 | `str.endswith`: true iff the suffix is no longer than the string and every character of it matches the string's last characters in order |
| `Text.AfterLast` | main.py:73 | the slice after the last separator contains no separator and is a suffix of the string. The character before it is the separator, and the whole string comes back when there is no separator |
| `Text.AfterLastOfSeparated` | main.py:71-73 | a prefix ending in the separator followed by separator-free text reads back as exactly that text |
| `Text.FormatFrom` | main.py:123-125 | `str.format` copies a template without braces unchanged |
| `Text.FormatSingleField` | main.py:123-125 | a template with exactly one `{}` and no other brace yields the text around it with the argument in its place |
| `Config.TierTable` | config.py:7 | the tier table has exactly the keys "default" and "high", and their machine types differ (total and injective) |
| `Config.TiersDistinguishable` | config.py:7 | neither machine type ends with the other, so the `endswith` test in `scale` tells the tiers apart |
| `Config.MachineTypePaths` | config.py:6-7 | neither machine type contains `/`, and `MACHINE_TYPE_SUFFIX` ends with `/` |
| `Config.KeywordsDistinct` | config.py:23-26 | the keywords for start, stop, scale up and scale down are pairwise distinct |
| `Config.MisspelledReplyKeys` | config.py:15-28 | "NotAuthorized", "alreadyStopped!" and "alreadyStarted!" are not keys of `DICTIONARY`; "notAuthorized", "alreadyStopped" and "alreadyStarted" are |
| `Config.MachineTypeTemplate` | config.py:27 | the "machineType" template is a brace-free caption followed by one `{}`, and formatting it with a name gives the caption followed by the name |
| `Server.AfterScaleReachesTarget` | main.py:55-68 | a resize keeps the status. On a stopped instance the machine type ends with the target afterwards. When the path was rewritten, the label read back is exactly the target |
| `Server.ScaleIdempotent` | main.py:56-68 | resizing twice to one tier leaves the state of one resize, and the second resize issues no call |
| `Server.ScaleGuard` | main.py:55-69 | on an instance that is not stopped, a resize changes nothing and issues no call, for either direction |
| `Server.TargetType` | main.py:57-59 | the target of `scale(up)` is the "high" tier's machine type when `up`, else the "default" one; it is a value of the tier table and contains no `/` |
| `Server.TargetsDistinct` | main.py:57-59 | scaling up and scaling down aim at different machine types, and neither ends with the other |
| `Server.MineCraftServer.constructor` | main.py:25-37 | the controller starts with the fetched resource and no calls issued |
| `Server.MineCraftServer.Start` | main.py:39-45 | returns true and logs exactly one start call iff the status is TERMINATED; otherwise false and no call; the snapshot is not modified |
| `Server.MineCraftServer.Stop` | main.py:47-53 | returns true and logs exactly one stop call iff the status is RUNNING; otherwise false and no call; the snapshot, status included, is not modified |
| `Server.MineCraftServer.Scale` | main.py:55-69 | returns true iff the status is TERMINATED. The new snapshot is `AfterScale` of the old one: the machine type becomes the suffix path plus the target unless it already ends with the target. The calls gain one update carrying the rewritten resource exactly when it was rewritten |
| `Server.MineCraftServer.GetMachineTypeStr` | main.py:71-73 | the name has no `/` and is a suffix of the path, preceded by `/` when shorter. It is the whole path when there is no `/` |
| `Server.MineCraftServer.IsMachineTypeDefault` | main.py:75-79 | true iff the machine-type name equals the default tier's machine type |
| `Server.ScaleTwice` | main.py:55-69 | two resizes to one tier in a row return the same answer and leave the calls and state of a single resize |
| `Gateway.Parse` | main.py:157-167 | the text names start, stop, scale up or scale down iff it equals that keyword exactly; any other text is unsupported |
| `Gateway.ParseKeyword` | main.py:158-165 | each keyword parses back to its own command, and a text parses to a command only if it is that command's keyword |
| `Gateway.Lookup` | main.py:101-167 | `DICTIONARY[key]` as a partial map: it returns the entry iff the key is in the table, and otherwise raises KeyError carrying that key |
| `Gateway.StartedMessage` | main.py:122-125 | `DICTIONARY["started"] + DICTIONARY["machineType"].format(name)` evaluated left to right: neither lookup nor the format raises, and the reply is the started text, the machine-type caption and the name |
| `Gateway.Authentic` | main.py:94-99 | the request authenticates iff its signature header is present and equals the signature of its body under the channel secret; an absent header never authenticates |
| `Gateway.LineMineCraft.RespondWith` | main.py:101-167 | `self.response(<expr>)` evaluates the argument before sending: r == Discard(message), and a reply is appended iff the message evaluated without raising |
| `Gateway.LineMineCraft.constructor` | main.py:83-91 | the handler holds the request's body, signature, sender, reply token, event type and text, the controller, and no replies |
| `Gateway.LineMineCraft.Response` | main.py:110-116 | one reply message is appended to the replies sent |
| `Gateway.LineMineCraft.Auth` | main.py:93-108 | the signature is checked first: on a mismatch (or no header) it raises KeyError("NotAuthorized") and sends nothing. Otherwise it returns whether the sender is allow-listed, and an unlisted sender gets no reply |
| `Gateway.LineMineCraft.Start` | main.py:118-129 | returns whether the instance was TERMINATED and logs one start call exactly then. It replies with "started" and the filled machine-type template, or "already started" |
| `Gateway.LineMineCraft.Stop` | main.py:131-139 | on RUNNING: one stop call and the "stopped" reply, then returns true on the default tier or raises KeyError("alreadyStarted!") without any update. Otherwise no call, no reply, and KeyError("alreadyStopped!"). The snapshot is not modified |
| `Gateway.LineMineCraft.Scale` | main.py:141-147 | the controller's resize (`AfterScale`, `ScaleCalls`). On TERMINATED it returns true with the "changed" reply, otherwise KeyError("alreadyStarted!") and no reply |
| `Gateway.Line` | main.py:150-167 | at most one provider call and one reply. A bad signature gives no call and KeyError("NotAuthorized"). An unlisted sender, or a non-message event that carries a text, gives nothing (an event without `message.text` fails while the request is read, see "## Left out"). Otherwise the outcome of the single command the text names exactly, as in the rows above, and other text gives only the "not supported" reply |

## Left out

- The Google API client, its credentials and the provider's `get` (main.py:26-37) are not modelled. `Line` takes the fetched resource as a parameter instead.
- The `.execute()` calls (main.py:41-43, 49-51, 62-67) are not modelled. Each becomes an entry in the `calls` log, and provider exceptions and retries are not modelled.
- A log entry does not record the project, zone or instance name. They are always the controller's own.
- The update body holds only `status` and `machineType`; the other fields of the instance resource are not modelled.
- `LineBotApi`, the network and the swallowed `LineBotApiError` in `response` (main.py:111-116) are not modelled. A reply is appended to `replies`, and every reply goes to the request's reply token.
- HMAC-SHA256, base64, and the UTF-8 encoding and decoding around them (main.py:94-97) are not modelled. They are the function parameter `sign`, and its result is only compared for equality.
- Reading the JSON payload and headers (main.py:84-90) is not modelled. `Request` holds the fields of the first event and the signature header. A payload without `message.text` (a non-message event, a sticker message) raises KeyError at main.py:89 while the handler is built, before `auth`; that failure is not modelled, and `Line` covers only requests that carry a text.
- `print` logging (main.py:100, 105) is not modelled.
- What the function platform does with an exception that escapes `line` is not modelled.
- Two webhook deliveries that race on the instance are not modelled.
- Text.FormatFrom: numbered or named replacement fields and format specifications (`{0}`, `{name}`, `{:x}`) count as raising. Only bare `{}` fields and the `{{` and `}}` escapes are modelled, which covers the one template the program formats.
