# Learning Notes Extractor — a Dafny model

The Learning Notes Extractor is a browser extension for three AI chat sites
(claude.ai, chatgpt.com, gemini.google.com). On a supported page it finds the
chat's text input, overwrites it with a fixed "learning notes" prompt template,
announces the change with a bubbling `input` event, and counts the use in
`chrome.storage.sync`. The prompt can be inserted from a floating button that the
content script adds to the page, or from the toolbar popup, which injects its own
copy of the same logic into the active tab. A background worker initialises the
store on install and answers `updateUsageCount` messages.

This project models that core:

- `wrappers.dfy` — `Option`, standing for JavaScript's `null`/`undefined`, and the map lookup `Find`.
- `text.dfy` — `Includes`, JavaScript's `String.prototype.includes`, defined
  recursively and proved equal to "occurs at some index".
- `storage.dfy` — the store as a class `SyncStorage` over `map<string, int>`,
  with `get`, `set` (a merge) and the read-modify-write of `usageCount`. A missing
  key and the value `0` are both falsy, as `x || 0` and `!x` treat them in
  JavaScript. It also holds the specification functions `Incremented` and `Installed`.
- `background.dfy` — the `onInstalled` and `onMessage` listeners, and the fold
  `Deliver` of many messages.
- `content.dfy` — platform detection, the per-platform selector table and input
  lookup, and the element write chosen by tag. The class `Page` has five fields:
  the host name, the selector-to-element map that stands for `document.querySelector`,
  the element heap, the ids in the document, and a counter of dispatched `input` events. `Page` carries `insertPrompt` and
  `createExtractButton`.
- `popup.dfy` — the injected function, written step by step as in the source and
  proved to behave exactly like `insertPrompt`. It also holds the statistics the
  popup shows: the usage count and the days since install.

Two behaviours of the source are worth stating plainly. `onInstalled` re-initialises
whenever the stored date is falsy, and it then also resets `usageCount` to 0
(background.js:4-8, `Installed`). Gemini's fallback is an editable div, never a
textarea (content.js:74-75, `TextareaOnlyPage`).

The abstracted primitives are plain definitions, not properties:
`Wrappers.Find` is a map lookup that stands for both a one-key `storage.sync.get`
and `document.querySelector`, `Storage.OrZero` is JavaScript's `|| 0` on a stored
number, and `Storage.SyncStorage.Get` returns `Find` of the store.

## Model

| member | source | states |
|---|---|---|
| `Text.Includes` | content.js:59-61 | `host.includes(sub)` holds exactly when `sub` occurs in `host` at some index |
| `Content.DetectPlatform` | content.js:57-63 | claude.ai wins whenever present; chatgpt only without claude.ai; gemini only without both; null exactly when none of the three occurs |
| `Content.OldOpenAiHostUnsupported` | content.js:59-62 | the host `chat.openai.com` is classified as unsupported |
| `Content.ClaudeTakesPriority` | content.js:59-60 | every host that contains both claude.ai and chatgpt.com is classified as Claude |
| `Content.ChatGptBeforeGemini` | content.js:59-61 | every host that contains chatgpt.com and gemini.google.com but not claude.ai is classified as ChatGPT |
| `Content.MixedHostIsChatGpt` | content.js:59-61 | the host `gemini.google.com.chatgpt.com` names Gemini yet is classified as ChatGPT |
| `Content.FirstMatch` | content.js:68-75 | reference lookup: the match of the first selector in the list that matches anything; none exactly when no selector matches |
| `Content.GetInputElement` | content.js:66-78 | the if/else lookup equals the first match over the table (claude: editable div, textarea; chatgpt: #prompt-textarea, textarea; gemini: .ql-editor, editable div); the result is an element of the page |
| `Content.PrimaryWins` | content.js:68-75 | when the primary selector matches, its element is returned, whatever the fallback matches |
| `Content.TextareaOnlyPage` | content.js:66-77 | on a page with only a textarea, Claude and ChatGPT find it and Gemini finds nothing |
| `Content.Resolve` | content.js:81-92 | an unsupported host stops before any lookup; not-found exactly when the platform is known and its lookup fails; otherwise the located element |
| `Content.Written` | content.js:95-101 | a TEXTAREA gets the text in `value`, any other tag in `textContent`; the tag and the other field are unchanged; the shown text equals the written text |
| `Content.WrittenOverwrites` | content.js:96-99 | a write replaces earlier content: the element after two writes equals the element after the last write alone |
| `Content.WrittenTimesIdempotent` | content.js:96-99 | any number n ≥ 1 of insertions of the same text equals one insertion, and the element shows the text exactly |
| `Content.Page.InsertPrompt` | content.js:81-113 | the outcome is `Resolve(host, dom)`; on success only the located element changes (by `Written` with the prompt), one input event is dispatched and `usageCount` becomes old-or-0 plus 1; on an early exit nothing changes, neither elements nor storage |
| `Content.InsertTwice` | content.js:95-110 | two insertions leave the element showing the prompt once; the store is the old store incremented twice (counter up by exactly 2, every other key kept); two input events are dispatched |
| `Content.WithButton` | content.js:116-143 | with the button id already present (any number of times) the ids are unchanged; otherwise the button id is appended at the end; so the id is present afterwards, with at most one button before there is exactly one after, and no other id's count changes |
| `Content.WithButtonIdempotent` | content.js:118-120 | creating the button a second time changes nothing |
| `Content.Page.CreateExtractButton` | content.js:116-143 | the page's ids become `WithButton` of the old ids; nothing else changes |
| `Storage.Incremented` | content.js:107-110 | `usageCount` reads as old-or-0 plus 1; no key is lost or added besides `usageCount`; every other key keeps its value |
| `Storage.Installed` | background.js:3-9 | with a truthy install date the store is unchanged; otherwise `installDate := now`, `usageCount := 0`, all other keys kept |
| `Storage.InstalledOnce` | background.js:4-8 | after an install at a nonzero time, a later install changes nothing, and the stored date is truthy |
| `Storage.SyncStorage.Set` | background.js:20 | `set` overwrites the given keys and keeps every other key |
| `Storage.SyncStorage.IncrementUsage` | content.js:107-110 | the store becomes `Incremented(old)`, and the new count is returned |
| `Background.OnInstalled` | background.js:2-10 | the store becomes `Installed(old, now)` |
| `Background.OnMessage` | background.js:16-25 | `updateUsageCount` increments the counter and answers `{success: true, count}` with the newly stored count; any other action changes nothing and gets no answer; in both cases the store becomes `Handled(old, action)`, the transition the message-sequence lemmas are about |
| `Background.DeliverCounts` | background.js:17-21 | after any sequence of messages, `usageCount` rose by exactly the number of `updateUsageCount` messages, and no other key changed |
| `Background.InstallThenDeliver` | background.js:3-21 | after a fresh install and N update messages, the counter is N and the install date is the install time |
| `Background.InsertionsCount` | content.js:107-110 | N successful insertions (each incrementing the counter) have the same effect on the store as N `updateUsageCount` messages: the counter rises by exactly N and no other key changes |
| `Popup.InjectPrompt` | popup.js:74-121 | the step-by-step detection and lookup reach the same outcome as `Resolve`, with the same claude/chatgpt/gemini priority and the same fallbacks; the located element receives exactly the `prompt` argument in the field its tag selects; the counter rises by 1 only after a write; on an early exit nothing changes |
| `Popup.OnInsertClick` | popup.js:72-123 | the popup's insertion, with the prompt template as argument, has exactly the effect of the floating button's `insertPrompt` |
| `Popup.ComputeStats` | popup.js:57-63 | the shown usage is the stored count or 0; days active is the floor of (second clock read minus install time) over 86400000, stated as a bracket; the install time is the stored date or the first clock read; non-negative when the second read is not before the install time; 0 with no stored date when the second read is at most a day after the first and not before it |
| `Popup.ClockStepBackShowsMinusOne` | popup.js:59-60 | with no stored date, whenever the clock steps back by at most a day between the two reads, the popup shows -1 days |
| `Popup.StatsAfterInstall` | popup.js:58-60 | right after a fresh install at t, the popup shows 0 uses and `(now - t) div 86400000` days, whatever the first clock read |
| `Popup.DaysActiveMonotone` | popup.js:59-60 | once an install date is stored, the day count never decreases as the second clock read grows |

## Left out

- Real DOM querying (`querySelector`, `getElementById`) is left out. The document is a map from the four selectors to element identities, plus a sequence of element ids. Nothing relates the button to the selector map. The selector map does not constrain the matched element's tag: the `textarea` entry may name an element whose tag is not `TEXTAREA`. No contract depends on this, because the write chooses the field by the element's tag.
- Event dispatch is reduced to a count of `input` events. `focus()` is not modelled.
- The `init` bootstrapping, the `DOMContentLoaded` hook and the `MutationObserver` that re-creates the button (content.js:146-170) are event plumbing. Only the insert-if-absent step they repeat is modelled (`WithButtonIdempotent`).
- The button's class name, SVG markup and click handler with its `success` class timer (content.js:124-140) are user-interface details.
- The Chrome APIs `tabs.query`, `scripting.executeScript`, the `runtime` message transport (including `return true` to keep the channel open), `alert` and `console.log` are left out. Their effects appear as the `Outcome` value and the `Option<Response>` answer.
- The popup's try/catch and its status text are left out (popup.js:125-128, 131-149). The popup reports success even when the injected function returned early. That is interface behaviour and is not stated as a contract.
- The clipboard copy button is left out.
- Storage calls are asynchronous in the source. Here they are sequential and atomic, so concurrent increments that race are not modelled.
- Stored values are integers only. JavaScript could store other types under these keys.
- The clock (`Date.now()`) is a parameter: `now` for the install handler, and two separate readings for the popup statistics, which read it twice when no install date is stored (with a stored date only the second read happens). Timestamps are integer milliseconds. `Math.floor` of the float quotient becomes Dafny's `/`, which floors for a positive divisor.
- `Content.UniversalPrompt` holds only the first sentence of the prompt template. No property depends on its text.
- `Storage.InstalledOnce`: requires a nonzero install time. A date of 0 is falsy in JavaScript, so the source would re-initialise.
