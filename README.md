# Sentiment-analysis front end: history store, submission flow, formatters

This project models the two pieces of sequential logic under the
sentiment-analysis web page, and proves properties about them.

The first piece is the home page's state. It holds four things: the input
text, the current result, a loading flag, and a history of past
analyses. Each insert caps the history at ten entries; a longer list
found in storage at mount is installed as it is. The history is
persisted under the local-storage key `"analysisHistory"`. The
handlers are: submit the text for analysis, show a remembered entry,
delete one entry, and clear the history. There are also two effects:
the mount effect restores the stored list, and the save effect persists
the list after each change that leaves it non-empty. That is why
clearing and deleting the last entry remove the key themselves.

The second piece is the presentation formatters. These are total maps
from an optional classification result to the emoji, the Vietnamese
label, the colour class, the gradient class and the confidence tier
("Cao", "Trung bình", "Thấp").

Modules:

- `Types` (`types.dfy`) holds the result and entry values. The label is
  kept as the free string the classifier sends. `Classify` is the string
  switch that turns it into `Positive | Neutral | Negative | Other(raw)`.
- `JsString` (`jsstring.dfy`) models ECMAScript's `trim`, which decides
  whether an input is blank.
- `SentimentHelpers` (`sentiment_helpers.dfy`) holds the five formatters.
- `History` (`history.dfy`) holds the value-level list operations:
  - the capped insert `[entry, ...prev.slice(0, 9)]`;
  - `splice(index, 1)` with JavaScript's treatment of any integer index;
  - how a stored value is restored on mount.
- `Page` (`page.dfy`) is the page component as a class `Home`.
  - Its fields are `text`, `result`, `loading`, `history`, and `stored`
    (the storage key).
  - Every handler is one atomic step.
  - `analyzeText` awaits twice: on `fetch` (frontend/app/page.tsx:54)
    and on `response.json()` (frontend/app/page.tsx:66). Between the two
    it only tests `response.ok` and writes no state, so one split is
    enough: `BeginAnalysis` runs up to the request and `FinishAnalysis`
    after the body is read, and other handlers can run in between. `AnalyzeText` is the uninterrupted
    composition of the two.
  - The network call is an `Outcome` parameter: `Success(data)` for an
    ok response that parsed, `Failure` for anything else.
  - The storage key is `Option<Stored>`, where `Stored` is
    `Saved(entries)` or `Unparseable`.

Two invariants are proved for every handler:

- `Valid`: the history holds at most 10 entries, and so does the stored
  list.
- `Synced`: a reload would restore exactly the current history.

The comment at frontend/app/page.tsx:71 promises to keep only the last
10 entries, and the insert does. The mount effect at
frontend/app/page.tsx:34, however, installs a stored list without
truncating it. So `Valid` holds only when the stored list found at mount
respects the cap.

The label formatter returns the Vietnamese strings "Tích cực",
"Trung tính" and "Tiêu cực" (frontend/utils/sentimentHelpers.ts:21-25).

## Model

| member | source | states |
|---|---|---|
| `Types.Classify` | frontend/utils/sentimentHelpers.ts:5-13 | The label switch is lossless: the label it gives spells back to the input string, and an `Other` label never carries one of the three recognised names. |
| `Types.ClassifySpelling` | frontend/types.ts:2 | Every well-formed label is recovered from its spelling (the other direction of the round trip). |
| `SentimentHelpers.SentimentEmoji` | frontend/utils/sentimentHelpers.ts:3-15 | The emoji is empty exactly when there is no result or its label is unrecognised. |
| `SentimentHelpers.SentimentText` | frontend/utils/sentimentHelpers.ts:17-29 | The Vietnamese label is empty exactly when there is no result or its label is unrecognised. |
| `SentimentHelpers.SentimentColor` | frontend/utils/sentimentHelpers.ts:31-43 | The colour class is empty exactly when there is no result or its label is unrecognised. |
| `SentimentHelpers.SentimentGradient` | frontend/utils/sentimentHelpers.ts:45-59 | The gradient is never empty. It is the blue/indigo default exactly when there is no result or its label is unrecognised. |
| `SentimentHelpers.Max3` | frontend/utils/sentimentHelpers.ts:64-68 | `Math.max` of three scores is one of them and at least each of them. |
| `SentimentHelpers.ConfidenceLevel` | frontend/utils/sentimentHelpers.ts:61-73 | The tier is empty exactly for no result. For a result, with m the largest score: "Cao" iff m > 0.8, "Trung bình" iff 0.5 < m <= 0.8, "Thấp" iff m <= 0.5. |
| `SentimentHelpers.NullResultDefaults` | frontend/utils/sentimentHelpers.ts:4-62 | With no result, emoji, label, colour and tier are empty and the gradient is the default. |
| `SentimentHelpers.FormattersSeparateLabels` | frontend/utils/sentimentHelpers.ts:5-57 | For two recognised labels, each of the four label formatters gives equal strings iff the labels are the same. So the three labels are pairwise distinct under every formatter. |
| `SentimentHelpers.UnknownLabelLooksAbsent` | frontend/utils/sentimentHelpers.ts:12-57 | An unrecognised label formats exactly like no result (the `default:` branches). |
| `SentimentHelpers.MaxIgnoresOrder` | frontend/utils/sentimentHelpers.ts:64-68 | Any permutation of the three scores has the same maximum. |
| `SentimentHelpers.ConfidenceIgnoresOrderAndLabel` | frontend/utils/sentimentHelpers.ts:64-72 | Two results whose scores are permutations of each other get the same tier, whatever their labels. |
| `SentimentHelpers.ConfidenceBoundaries` | frontend/utils/sentimentHelpers.ts:70-72 | Scores at the boundaries: max 0.8 is medium, 0.81 high, 0.5 low, 0.51 medium. |
| `JsString.TrimStart` | frontend/app/page.tsx:50 | Leading trim returns the suffix that starts at the first non-white-space character. Everything it drops is white space. |
| `JsString.TrimEnd` | frontend/app/page.tsx:50 | Trailing trim returns the prefix that ends at the last non-white-space character. Everything it drops is white space. |
| `JsString.Trim` | frontend/app/page.tsx:50 | `trim()` is no longer than its input. It gives the empty string exactly when every character is white space. A non-empty result starts and ends with non-white space, and a string with no white space at either end is unchanged. |
| `JsString.TrimIsMiddleSlice` | frontend/app/page.tsx:50 | `trim()` returns a contiguous slice of its input, with only white space before and after it. |
| `History.SliceTo` | frontend/app/page.tsx:71 | `slice(0, end)` is the prefix of length min(end, length). |
| `History.Insert` | frontend/app/page.tsx:70-71 | The new entry is first. The old entries follow in their order. The length is min(old length + 1, 10), so the oldest is dropped only when the list already had 10 or more. |
| `History.InsertAllKeepsNewest` | frontend/app/page.tsx:71 | After any series of successful analyses, the history is the newest ten entries, newest first, followed by the earlier list as far as the cap allows. It never exceeds 10. |
| `History.RemoveAt` | frontend/app/page.tsx:91-92 | For an index in range, the list without that item (`s[..i] + s[i+1..]`). A negative index counts from the end. An index at or past the end removes nothing. The length drops by one exactly when something is removed. |
| `History.RemoveAtDropsOne` | frontend/app/page.tsx:91-92 | Removal takes out exactly one occurrence of the removed item. The other items keep their order and their multiplicities. |
| `History.Restored` | frontend/app/page.tsx:31-38 | A stored list that parses replaces the history. An absent or unparseable key leaves the history as it was, and no error escapes. |
| `Page.Home.constructor` | frontend/app/page.tsx:22-39 | Initial state is empty text, no result, not loading. The history is the stored list if one parses, else empty. Storage is untouched, and the page is in sync with it. |
| `Page.Home.SaveEffect` | frontend/app/page.tsx:42-46 | Writes the list to storage exactly when it is non-empty. Otherwise the key keeps its old value. |
| `Page.Home.SetText` | frontend/app/page.tsx:22 | The input text becomes the given string; nothing else changes. |
| `Page.Home.BeginAnalysis` | frontend/app/page.tsx:48-52 | A blank input sends nothing and changes nothing. Otherwise loading starts and the raw, untrimmed text is what is sent. |
| `Page.Home.FinishAnalysis` | frontend/app/page.tsx:53-77 | On success, the result becomes the data, the entry (submitted text, data) is inserted in front of the current list, and the list is persisted. On failure, result, history and storage are unchanged. Loading ends either way. Both invariants are preserved. |
| `Page.Home.AnalyzeText` | frontend/app/page.tsx:48-78 | With no interleaving: a blank input changes nothing. On success, history[0] is (raw text, data), the history is capped at 10 and persisted, and the result is the data. On failure, only the loading flag changes, and it ends false. |
| `Page.Home.CanSubmit` | frontend/components/InputForm.tsx:120 | The button is enabled exactly when the page is not loading and the input is not all white space: the negation of the button's `disabled` expression. |
| `Page.Home.PressAnalyze` | frontend/components/InputForm.tsx:120 | While loading, or with a blank input, the button sends nothing and changes nothing. So at most one request is in flight. |
| `Page.Home.LoadHistoryItem` | frontend/app/page.tsx:80-83 | Text and result become the entry's. History, storage and loading are untouched. |
| `Page.Home.ClearHistory` | frontend/app/page.tsx:85-88 | The history is empty and the storage key is removed. |
| `Page.Home.DeleteHistoryItem` | frontend/app/page.tsx:90-101 | The history is the splice of the old one (`h[..i] + h[i+1..]` for an index in range). Storage holds the new list if it is non-empty; otherwise the key is removed. |
| `Page.ClearThenReload` | frontend/app/page.tsx:31-32 | Clearing and then mounting a new page gives an empty history. |
| `Page.Reload` | frontend/app/page.tsx:29-46 | Mounting a new page over the storage the handlers left restores the same history. |

## Left out

- Rendering (the JSX of the page and of InputForm, ResultsDisplay, HistoryDropdown, SentimentChart, Header) and animation: no state logic.
- The history panel uses its own emoji ternary (frontend/components/HistoryDropdown.tsx:62-66), which shows 😞 for any label other than positive or neutral. That differs from the helper's empty default. It is not modelled.
- `fetch`, `response.ok` and `response.json()` are one abstract `Outcome`. The request's URL, headers and JSON body are not modelled. Neither is a response body that parses but is not a result: the model's `Success` always carries a well-formed result.
- `JSON.stringify` and `JSON.parse` of the stored list are not modelled. The key holds a list or `Unparseable`. Stored JSON that parses to something other than a list of entries is not modelled; the code would install such a value as the history.
- React's asynchronous batching of state updates and its effect scheduling. Every handler is one atomic step. The save effect runs after every assignment to the history, however often React would actually run it.
- `Page.Home.SaveEffect`, `Page.Home.DeleteHistoryItem` and the `Synced` invariant assume that every storage write succeeds and that this page is the only writer of the key. `localStorage.setItem` can throw (a quota error for a long history, a security error when storage is disabled), and so can `getItem` at mount. Another tab of the same origin can also overwrite the key. In `deleteHistoryItem` such a throw would escape after the history was replaced, leaving the history and the stored list apart. None of this is modelled.
- `console.error` logging on failure and on parse errors.
- Floating-point scores: the scores are `real`, so NaN, which `Math.max` would propagate into the low tier, is not modelled.
- String lengths: the model counts Unicode scalar values where JavaScript counts UTF-16 code units. Only `trim` sees strings, and every JavaScript white-space character is a single code unit.
- The backend inference service and the chart's percentage formatting (`toFixed(2)`, `* 100`).
