# replify, verified

A Dafny model of the `replify` response envelope (Go): the `wrapper` object as a state machine, its render cache, the
printer and the parser, signing, normalisation, pagination, error chains, the HTTP middleware writers and `Clone`, with
proofs about them. `dafny verify dfyconfig.toml` checks everything.

## How the model is laid out

| file | models |
|---|---|
| Values.dfy, Library.dfy | JSON-like values, 64-bit integers, blank text; the library calls the code makes, as functions with stated laws |
| Pages.dfy | `page.go`: offset pagination |
| Parts.dfy, Bodies.dfy | the records attached to an envelope and the maps they print; the data payload and its casting |
| ErrorChain.dfy, CauseWalk.dfy | `error.go`; the cycle-safe `wrapper.Cause` on arbitrary finite graphs of errors and envelopes |
| Envelope.dfy, Wrapper.dfy | `replify.go` as functions on values, and as a class whose methods refine them |
| Outcome.dfy | status, header, error and issue |
| Printing.dfy, Setters.dfy | what the printed map tells of a state, what UnwrapJSON makes of it, and what each fluent call changes in it |
| RenderCache.dfy, ConcurrentRender.dfy | `Respond` against `build`, sequentially and under the RWMutex protocol |
| Runs.dfy | all runs of public calls: what they keep, and when `Respond` is right |
| Unwrap.dfy | `UnwrapJSON` as the parser of what `build` prints |
| Signing.dfy | `ApplySignature` and `VerifySignature` in one process and across print and parse |
| Normalize.dfy | `NormAll` as a convergent rewriting with a change counter |
| Middleware.dfy | the Recovery and Logger writers |
| CloneHeap.dfy, CloneRuns.dfy | what a clone shares with its original; interleaved calls on both |

What the Go code does in place is modelled twice: as functions on an immutable state (`Step`, `Render`, `Norm`, `Serve`,
...) and as a class or method that updates fields in place and is proved equal to the function. Properties of runs are
proved of the functions, so they hold of the methods. A run (Runs.dfy) is any sequence of fluent calls, `Respond`,
`NormAll`, `ApplySignature` and `VerifySignature`.

## Results worth knowing

* **Cache.** The comment on `hash256Complex` says that the key covers every field `build` writes. It covers nine of
  fourteen, and data, debug and custom fields only as far as hashy tells values apart: it digests nil like the int 0,
  so `WithDebugging({"a": nil})`, `Respond`, `WithDebugging({"a": 0})`, `Respond` returns `"a": null`. Nor does the
  cached map keep what was built: it refers to the debug map (replify.go:4593), the custom fields (meta.go:1286) and
  the signature headers (signature.go:457) of the wrapper itself. An entry written into one of them after a render is
  therefore always seen, even where digests collide or hashing fails; but a map that is written and then replaced goes
  on in the cache under its old key. With all digests different, `WithDebuggingKV("a", 1)`, `Respond`,
  `WithDebuggingKV("a", 2)`, `WithDebugging({"a": 1})`, `Respond` returns `"a": 2`.
* **What Respond guarantees.** In every run the returned map agrees with a fresh build on status_code, path, message,
  total and pagination, on meta and header up to absent against empty, and on data up to equal digests; its debug map
  and custom fields are the present ones or ones given up since. Full agreement needs four things. State outside the
  key must change only through calls that reset the cache; `WithCursor` and, on 1xx and 3xx, the error setters break
  that. No map that a render printed may be written and then given up while the cache stays. hashy must tell the
  values of the run apart. And no render may start blind, with a failure pending (an unset status under a 4xx or 5xx
  header, which only parsed and hand-filled envelopes have) and neither error nor issue: rendering the parsed
  `{"header":{"code":404}}` twice returns a map without the issue, and the render after a blind one of a hashable
  wrapper is always wrong. Under the first three, Respond is wrong exactly when it hits a map that prints a failure
  without its issue. A payload, debug entry or custom field that hashy refuses freezes the cache, but for what is
  written into the three maps.
* **Concurrency.** The double-checked protocol builds at most once and never returns a wrong map on a settled wrapper;
  a field change between hash and build pairs the old key with the new map.
* **Signing.** Sign-then-verify in one process works exactly when the cache is up to date and no issue is added after
  signing, which happens on an unset status with a 4xx or 5xx header. Across print and parse the payload must also
  keep its bytes: null, false, texts that `NormalizeJSON` repairs, and, without canonicalization (the default), every
  JSON payload whose object keys are not in sorted order (struct payloads among them) fail to verify. A configuration
  with headers to sign can sign but never verify, and one with a timestamp and no maximum age never verifies.
  `ApplySignature` is documented to leave the wrapper unchanged on failure; the code writes header, message and, for a
  failed canonicalization, the error, and the model follows it.
* **Cause.** `wrapper.Cause` claims to be safe on cycles. It is, for cycles of plain errors, and then it returns the
  first node of the cycle; a cycle through an envelope makes it run forever, because the nested envelope starts with
  its own visited set.
* **NormAll.** One pass is enough exactly when a header is present or the status is unset or valid; else two are. The
  change counter goes up on every pass while pagination is present.
* **Pagination.** Setter order is irrelevant unless totalItems + perPage - 1 overflows 64 bits.
* **Clone.** Documented as deep, it shares the header map inside the signature, and drops nil links. Public calls on a
  wrapper and its clone never meet. Writes through handed-out pointers meet in two places: that header map, and the
  package-level headers, which `OK()` and its like, `autoAdjust` and a failed signing store by pointer.
* **Middleware.** The snippet in the `Logger` comment, `Recovery()(Logger()(h))`, contradicts the sentence above it
  and logs nothing when the handler panics. A flush before a panic makes the log say 500 where 200 was sent.

## Assumptions

* `Runtime` and `Crypto` are records of functions for library code. `Lawful` states what is used of encoding/json and
  `NormalizeJSON`: printing then decoding gives the value back, compaction keeps it, a payload text is copied
  unchanged, and normalisation leaves valid JSON alone and never lengthens a text. `Discriminating` states that the
  code is never blank and differs for different payloads, `Stamping` that the timestamp can be read off the end of a
  payload. All are hypotheses of the lemmas that need them.
* Numbers, texts and records of fixed shape in the cache key are digested without collision. The digests of payloads,
  debug maps and custom fields are functions of the value with no law; where a lemma needs different values to be
  digested differently it says so (`ToldApart`), and hashy does not satisfy that for all values: nil and the int 0
  (pkg/hashy/hasher.go:26-52), true and the int8 1 (hasher.go:64-77) agree.
* A struct or map that a caller passes to a setter is passed once, was not handed out before by a wrapper, and is not
  changed by the caller afterwards; nor does the caller write into a map that Respond returned. The package-level
  headers are the exception, and are modelled.
* Go's nil and empty debug maps are one value; a key of a map is a known field name or `Named` with some other text.
* Allocation identities, random texts, clock readings and the bytes a connection accepts are arguments of the calls.

## Model

| member | source | states |
|---|---|---|
| `Pages.Pagination.CalculateFields` | page.go:493-518 | the in-place recalculation refines `Calculate`: page at least 1, 64-bit ceiling page count, last-page flag |
| `Pages.Pagination.WithPage` | page.go:18-25 | the page is clamped to at least 1 and everything is recalculated |
| `Pages.Pagination.WithPerPage` | page.go:38-45 | a size below 1 becomes 10 and everything is recalculated |
| `Pages.Pagination.WithTotalPages` | page.go:58-64 | only the clamped page count is written, nothing is recalculated |
| `Pages.Pagination.WithTotalItems` | page.go:77-84 | the clamped item count is written and everything is recalculated |
| `Pages.Pagination.WithIsLast` | page.go:96-99 | only the flag is written |
| `Pages.Pagination.Normalize` | page.go:200-226 | Norm in place refines the value function `Norm` |
| `Pages.Pagination.Clone` | page.go:472-484 | a clone is a new object in the same state |
| `Values.EmptyIff` | pkg/strutil/string.go:70-75 | a text is blank exactly when it has white space only |
| `Values.TruncMeaning` | page.go:499-503 | 64-bit division leaves a remainder smaller than the divisor, with the sign of the dividend |
| `Pages.SetterInputs` | page.go:18-99 | each setter stores its argument, below the least allowed value 1, 10, 0 and 0, and keeps the other inputs |
| `Pages.CalculateMeaning` | page.go:493-518 | for every state, parsed ones included: the page count is the least that holds all items and the flag says that none is left; no page size keeps the count, overflow keeps the flag |
| `Pages.NormMeaning` | page.go:200-226 | for every state: the page is lowered exactly when it starts behind the last item, and count and flag fit it; without a page size the count is 0 |
| `Pages.CeilExact` | page.go:499-503 | the 64-bit page count is the mathematical ceiling, and is positive, exactly when totalItems + perPage - 1 fits |
| `Pages.CeilBounds` | page.go:499-503 | (pages - 1) * perPage < items <= pages * perPage |
| `Pages.PagesPartition` | page.go:493-518 | pages 1..totalPages partition the items: each item is on exactly one page |
| `Pages.OnlyLastPageShort` | page.go:493-518 | every page but the last is full, and the last holds at least one item |
| `Pages.IsLastMeaning` | page.go:200-226 | after calculate and after Norm isLast holds exactly when nothing is left beyond the page |
| `Pages.RunInputs` | page.go:18-99 | after any sequence of setters perPage, totalItems and page are the last clamped inputs |
| `Pages.SettersConfluent` | page.go:18-99 | a chain ending in a recalculating setter leaves one canonical state of page, perPage and totalItems: order and earlier WithTotalPages or WithIsLast calls do not matter |
| `Pages.OverflowKeepsTrace` | page.go:493-518 | under 64-bit overflow a WithIsLast call does leave a trace, for every overflowing pair of inputs |
| `Pages.NormIdempotent` | page.go:200-226 | Norm is idempotent |
| `Pages.NormErases` | page.go:200-226 | Norm does not depend on what WithTotalPages and WithIsLast wrote |
| `Pages.NormClamps` | page.go:200-226 | on setter-built states Norm is calculate after a clamp of the page, and changes nothing exactly when the page was in range |
| `ErrorChain.Cause` | error.go:181-193 | the walker returns the end of the cause chain, which may be nil |
| `ErrorChain.Is` | error.go:212-230 | Is holds exactly for the members of the cause chain |
| `ErrorChain.IsOwned` | error.go:243-259 | IsOwned holds exactly when the chain has an error of this package |
| `ErrorChain.ChainIsWalk` | error.go:181-193 | the cause chain is the only sequence of errors in which each has the next one as its Cause and the last has none |
| `ErrorChain.InnerMostIs` | utilities.go:1166-1173 | errors.Unwrap ends at the first error on the chain that is no wrapping of this package |
| `ErrorChain.MessageReads` | error.go:338-340 | an error reads as the annotations on its chain, outermost first, and then the text of the first error that wraps no other |
| `ErrorChain.WrapReads` | error.go:46-159 | an annotating constructor puts the annotation and a colon before the old text, acknowledging keeps the text; one or two new errors go in front, nil stays nil |
| `ErrorChain.WrapKeepsChain` | error.go:46-159 | every wrapping constructor keeps the root cause and what Is found, and adds only its own new errors |
| `ErrorChain.AppendErrors` | replify.go:2376-2391 | the loop is the fold `AppendAll` over the arguments |
| `ErrorChain.NilsIgnored` | replify.go:2380-2383 | the result depends on the non-nil arguments only |
| `ErrorChain.AppendSplits` | replify.go:2376-2391 | appending two lists in turn is appending their concatenation |
| `ErrorChain.AppendedReads` | error.go:338-340 | appended errors keep the first one as root and read newest first, joined by a colon and a blank |
| `ErrorChain.AppendedChain` | replify.go:2376-2391 | each appended error puts an annotation and a stack trace in front of the chain |
| `ErrorChain.AppendedTo` | replify.go:2376-2391 | appended to an error that is there, the list leaves it as root cause and reads newest first before it |
| `CauseWalk.Cause` | replify.go:67-97 | the visited-set loop on an envelope whose chain is grounded returns what the walk yields |
| `CauseWalk.CauseTerminatesIff` | replify.go:67-97 | on every finite graph, cyclic or not, wrapper.Cause returns exactly when no envelope on the chain lies on a cycle |
| `CauseWalk.CauseTerminates` | replify.go:67-97 | a grounded call returns after finitely many steps |
| `CauseWalk.CauseDiverges` | replify.go:67-97 | an ungrounded call is still running after any number of steps: the nested envelope starts with its own empty visited set |
| `CauseWalk.ReturnedNode` | replify.go:80-97 | a returned node is the end of the chain or a plain error on a cycle |
| `CauseWalk.CauseAtEnd` | replify.go:67-97 | on a chain that ends exactly its end is returned: the last error, nil behind a plain error, an empty error behind an envelope |
| `CauseWalk.CauseAtCycle` | replify.go:80-97 | on a chain that runs into a cycle of plain errors exactly the first node of that cycle is returned, however many envelopes come before |
| `CauseWalk.EndsOrEnters` | replify.go:67-97 | every chain on a finite graph ends or enters a cycle, so the two cover every call that returns |
| `CauseWalk.SelfWrappedDiverges` | replify.go:67-97 | an envelope whose error is itself makes Cause run forever |
| `CauseWalk.CausesAgree` | error.go:181-193 | on every acyclic chain wrapper.Cause and the package-level Cause stop at the same end |
| `Bodies.PayloadReprints` | entry.go:385-392 | a payload value comes back from print and parse exactly when it is not null, not false and no repairable text |
| `Bodies.PayloadRoundTrip` | utilities.go:438-464 | a payload text comes back byte for byte exactly when its value does and its object keys were sorted |
| `Bodies.TextReprints` | utilities.go:438-464 | which strings castString maps back to themselves after one print and parse |
| `Bodies.PlainPayload` | pkg/common/builtin.go:156-179 | nil, false and 0 are not printed; flags and numbers read as themselves |
| `Bodies.SlicePayload` | utilities.go:954-990 | a slice is printed unless it is empty, and reads as itself unless it holds a func |
| `Bodies.TreePayload` | utilities.go:954-990 | the same for a map |
| `Bodies.TextPayload` | utilities.go:438-464 | a text that is JSON, or is repaired to JSON, reads as that value; other texts as the normalized text, or as themselves where that is blank |
| `Bodies.BytesPayload` | utilities.go:954-990 | raw JSON reads as a text, bytes as JSON where they are JSON |
| `Bodies.StructPayload` | utilities.go:954-990 | a struct is printed unless it is zero; a func cannot be |
| `Library.TextsAgree` | utilities.go:127-132 | two rendered maps print the same bytes exactly when they are equal, payload layout included, or neither can be encoded |
| `Library.JsonReads` | entry.go:104-119 | the printed text decodes to the map with the payload text replaced by its value |
| `Outcome.ConsistentKept` | replify.go:1945-1952 | no fluent call breaks the agreement of status and header |
| `Runs.NewConsistent` | default.go:18-24 | every run of public calls from New, NormAll and the signing calls included, keeps status equal to header code, or unset with a header that is neither success nor failure |
| `Outcome.PendingKept` | replify.go:4515-4547 | no fluent call leaves a status unset under a failure header; only a parsed or hand-filled envelope starts that way |
| `Outcome.AdjustEffects` | replify.go:4515-4547 | after autoAdjust a failure has an error and an issue, an error is not on 2xx, errors and issues that were there stay, and the status moves only from 2xx to 500 |
| `Outcome.AdjustMakesError` | replify.go:4522-4526 | a 4xx or 5xx status without an error gets one that reads as the message, or as the standard text where that is blank; otherwise the error stays |
| `Outcome.AdjustMakesIssue` | replify.go:4541-4546 | an error without an issue gets one, with its own id and fingerprint and the text of the first error on the chain that wraps no other |
| `Outcome.AdjustOverrides` | replify.go:4530-4537 | exactly a 2xx status with an error becomes 500 Internal Server Error, with a debug entry; every other field stays |
| `Outcome.RenderingReads` | replify.go:106-114 | the rendered status is that of the header where none was set, after the adjustment |
| `Outcome.AdjustIdempotent` | replify.go:4515-4547 | autoAdjust is idempotent, whatever it draws at random |
| `Outcome.RenderingIdempotentIff` | replify.go:106-114 | autoAdjust followed by the lazy status is idempotent exactly when the header does not contradict the error field of an unset status |
| `Outcome.RenderingSettles` | replify.go:3483-3488 | on consistent states a render leaves nothing for autoAdjust to do |
| `Printing.TextsShown` | replify.go:4566-4611 | message and path are printed as they are, exactly unless blank |
| `Printing.NumbersShown` | replify.go:4566-4611 | the status is printed exactly if positive, the total unless negative |
| `Printing.DebugShown` | replify.go:4592-4594 | the debug map is printed as it is, exactly unless empty |
| `Printing.DataShown` | replify.go:4577-4579 | data is there exactly if it counts as present and is not skipped, and a reader finds a value exactly if it is that of the payload |
| `Printing.RecordsShown` | replify.go:4566-4611 | each of the eight records is printed exactly if it is there, and there are no other fields |
| `Printing.HeaderShown` | header.go:210-228 | code, text, type and description of the printed header |
| `Printing.MetaShown` | meta.go:1268-1295 | every field of the printed meta |
| `Printing.PagesShown` | replify.go:4584-4586 | every field of the printed pagination |
| `Printing.CursorShown` | replify.go:4595-4597 | every field of the printed cursor, blank texts included |
| `Printing.IssueShown` | replify.go:4598-4600 | id, fingerprint and message of the printed issue |
| `Printing.ReasonShown` | replify.go:4607-4609 | code and category of the printed reason |
| `Printing.SignatureShown` | signature.go:444-459 | algorithm, value, timestamp and headers of the printed signature |
| `Printing.LinkShown` | links.go:583-594 | a relation is printed exactly if its link has an address, with every field of it |
| `Printing.ScalarsBack` | entry.go:178-196 | after print and parse status, total, message, path and debug map are those of the envelope, blank texts as empty and numbers below 1 as 0 |
| `Printing.HeaderBack` | entry.go:231-248 | the header comes back with its code, text, type and description |
| `Printing.MetaBack` | entry.go:197-230 | meta comes back field by field, the time through its format |
| `Printing.PagesBack` | entry.go:249-274 | pagination comes back unchanged |
| `Printing.CursorBack` | entry.go:276-296 | the cursor comes back unchanged |
| `Printing.IssueBack` | entry.go:297-309 | the issue comes back with id, fingerprint and message |
| `Printing.ReasonBack` | entry.go:372-384 | the reason comes back unchanged |
| `Printing.SignatureBack` | entry.go:349-371 | the signature comes back with algorithm, value, timestamp and headers |
| `Printing.LinksBack` | entry.go:310-347 | exactly the links with an address come back, with every field |
| `Printing.WrongTypesIgnored` | entry.go:178-196 | in a map of any origin a value of the wrong type leaves its field zero |
| `Printing.RecordsNeedObjects` | entry.go:176-394 | a record is there exactly if the map has an object for it |
| `Printing.IntegersRead` | entry.go:121-186 | an integer in the 64-bit range is read exactly, any other number through float64 |
| `Setters.StatusCodeSet` | replify.go:1945-1952 | the status is printed clamped to 100..599, else 500, with a new header of the same code; nothing else moves |
| `Setters.HeaderSet` | replify.go:2162-2169 | the status is printed as the code of the header; nil does nothing |
| `Setters.TotalSet` | replify.go:1964-1967 | the total is printed unless negative; nothing else moves |
| `Setters.MessageSet` | replify.go:1979-1982 | the message is printed unless blank; nothing else moves |
| `Setters.PathSet` | replify.go:2114-2117 | the path is printed unless blank; nothing else moves |
| `Setters.BodySet` | replify.go:2020-2023 | the payload is printed if present and not skipped, and reads as its value; nothing else moves |
| `Setters.DebugSet` | replify.go:2244-2247 | the debug map is printed unless empty; nothing else moves |
| `Setters.DebugEntrySet` | replify.go:2589-2595 | the entry is printed beside the others; nothing else moves |
| `Setters.ErrorSet` | replify.go:2290-2293 | an error is never printed, and makes IsError true |
| `Setters.CauseBound` | replify.go:2402-2414 | a message that is not blank becomes the error, or is read before the one that is there, whose root cause stays |
| `Setters.ErrorsAppended` | replify.go:2376-2391 | after AppendErrors the error reads newest first and the first one is its root cause |
| `Setters.MetaSet` | meta.go:16-192 | the written meta field prints the argument |
| `Setters.MetaFieldsKept` | replify.go:2625-2630 | the other meta fields and the rest of the print stay |
| `Setters.MetaCounted` | meta.go:1238-1252 | the change counter moves by one in 64-bit arithmetic |
| `Setters.PagesSet` | replify.go:2866-2872 | pagination starts from zero where there is none, and takes the setter |
| `Setters.CursorFieldSet` | replify.go:2961-3082 | each cursor setter writes its field and keeps the others |
| `Setters.ReasonFieldSet` | replify.go:3096-3120 | a code brings the category of the table along |
| `Setters.LinkSet` | replify.go:3922-3932 | the relation prints the link exactly if it has an address; nothing else moves |
| `Setters.OtherLinksKept` | replify.go:3922-3932 | the other relations keep their links |
| `Setters.MetaPlaced` | replify.go:2181-2184 | meta is replaced, nil included |
| `Setters.PagesPlaced` | replify.go:2214-2217 | pagination is replaced, nil included |
| `Setters.CursorPlaced` | replify.go:2229-2232 | the cursor is replaced, nil included |
| `Setters.IssuePlaced` | replify.go:3844-3850 | the issue is replaced, nil ignored |
| `Setters.SignaturePlaced` | replify.go:4015-4021 | the signature is replaced, nil ignored |
| `Setters.ReasonPlaced` | replify.go:4031-4038 | the reason is replaced and the cache reset, nil ignored |
| `Setters.LinksPlaced` | replify.go:3876-3882 | the links are replaced and the cache reset, nil ignored |
| `Setters.NewShown` | default.go:18-24 | New prints the total 0, the header 102 and the default meta |
| `Setters.ResetShown` | replify.go:1896-1902 | Reset prints the total 0 and the default meta, from an empty cache |
| `Setters.ReleaseShown` | replify.go:4044-4116 | each Release call removes its field from the print and empties the cache; nothing else moves |
| `Runs.FaithfulRun` | replify.go:3478-3513 | in every run the cached map was built in some state with the cached hash; the debug map, custom fields and signature headers it refers to may have been written or given up since |
| `RenderCache.SameKeyCovers` | replify.go:4485-4501 | under an equal key a built map agrees with a fresh one on status_code, path, message, total and pagination, on meta and header up to absent against empty, and on data up to equal digests; its debug map and custom fields are what its references lead to, and had the present digests when built |
| `RenderCache.FuncRefused` | replify.go:4485-4501 | a func as payload, debug entry or custom field leaves the key empty |
| `RenderCache.FlatHashed` | replify.go:4485-4501 | flat maps and plain payloads never do |
| `Runs.RespondPartiallyCorrect` | replify.go:3478-3513 | for every run and every hashable wrapper the returned map agrees with a fresh build: exactly on five fields, up to absent against empty on header and meta, up to equal digests on data; its debug map and custom fields are the wrapper's present ones, or the ones it gave up with the entries they have by now |
| `Runs.UnhashableFreezes` | replify.go:4485-4501 | while hashy refuses every state of a run, be it for the payload, the debug map or the custom fields, Respond returns the first map, read through its references, which is right exactly when no cell printed by value has changed and the references lead to what a fresh build prints |
| `RenderCache.BuildDetermined` | replify.go:4566-4611 | key and uncovered state together determine the printed map, where the digests tell payload, debug map and custom fields apart |
| `RenderCache.HitExact` | replify.go:3490-3497 | a cache hit is right exactly when none of the six copied cells that can be stale moved, meta is there as before, the signature prints as before, and the debug map, custom fields and signature headers that the cached map refers to have the present entries |
| `Runs.RespondCorrect` | replify.go:3478-3513 | in every disciplined run of public calls in which no render starts blind (a failure pending, neither error nor issue), parsed envelopes included, Respond returns exactly what build prints, if hashy tells the payloads, debug maps and custom fields of the run apart |
| `Runs.RespondRightIff` | replify.go:3478-3513 | in every disciplined run that hashy tells apart, blind renders included, Respond is right exactly unless it hits a cached map that prints a failure without its issue |
| `Runs.BlindRenderHarms` | replify.go:4515-4547 | in every run, once a hashable wrapper was rendered blind and its map stored, the next Respond is wrong |
| `Runs.NotPendingNeverBlind` | replify.go:4515-4547 | a run that starts with no failure pending never renders blind |
| `RenderCache.SecondRenderIff` | replify.go:3478-3513 | of two renders in a row the second returns the fresh map exactly when the envelope did not start with a pending failure and neither error nor issue |
| `RenderCache.AlikeDebugGoesUnseen` | replify.go:4485-4501 | after a render a new debug map with the digest of the old one is invisible: the returned map is fresh only if the two are equal |
| `RenderCache.NilDebugGoesUnseen` | pkg/hashy/hasher.go:26-52 | after a render a new debug map with 0 where the old one had nil still prints null, given that hashy digests the two alike |
| `RenderCache.DebugWriteSeen` | replify.go:4592-4594 | a debug entry written after a render into a map that was not empty is always seen, whatever the digests, hashable or not |
| `RenderCache.WrittenThenReplaced` | replify.go:2589-2595 | after a render, an entry written and then the debug map replaced by one with the rendered digest: Respond returns the entries as written, which is right exactly if the new map has them |
| `RenderCache.WrittenThenRestored` | replify.go:3478-3513 | the same from a wrapper never rendered, with the first entries put back: no two different maps with equal digests are involved, and the returned map shows the entry that is gone |
| `RenderCache.CustomWriteSeen` | meta.go:1285-1287 | a custom field written after a render into a map that was not empty is always seen |
| `RenderCache.CustomWrittenThenReplaced` | meta.go:151-173 | custom fields written after a render and then replaced under the rendered digest stay in the returned map, which is right exactly if the new ones are the same |
| `Runs.DisciplinedCalls` | replify.go:4031-4116 | the calls that reset the cache, the calls on covered fields that give up no rendered map that was written since, error setters beside an issue, NormAll with header and meta present, successful signing and verifying are disciplined |
| `RenderCache.WithCursorGoesUnseen` | replify.go:2229-2232 | after a render WithCursor is invisible: the returned map is fresh only if the cursor did not change |
| `RenderCache.WithErrorSeenIff` | replify.go:4515-4547 | after a render an error setter is seen exactly on a 2xx status or beside an issue that was there |
| `ConcurrentRender.RespondConcurrently` | replify.go:3478-3513 | for any number of goroutines and any schedule build runs at most once, the write lock excludes all others, and every call returns the fresh map |
| `ConcurrentRender.SafeRun` | replify.go:3478-3513 | the lock, map and build invariants hold along every schedule |
| `ConcurrentRender.StepUsesWork` | replify.go:3478-3513 | every step uses up work, at most seven steps for a goroutine |
| `ConcurrentRender.NoDeadlock` | replify.go:3490-3507 | while a call is under way some goroutine can move |
| `ConcurrentRender.EveryCallCanReturn` | replify.go:3478-3513 | from any safe world some schedule lets every call return the fresh map |
| `ConcurrentRender.ChangePairsKeyWithWrongMap` | replify.go:4477-4484 | a change of fields between hash and build stores the old hash with the new map, and a later call gets the wrong map |
| `Wrappers.Wrapper.New` | default.go:18-24 | a new wrapper is the state with header 102 and an empty cache |
| `Wrappers.Wrapper.ResetAll` | replify.go:1896-1902 | Reset leaves the zero state with default meta and an empty cache |
| `Wrappers.Wrapper.SetStatusCode` | replify.go:1945-1952 | the in-place call refines its step: status and a new header with the same clamped code |
| `Wrappers.Wrapper.SetHeader` | replify.go:2162-2169 | the in-place call refines its step: nil is ignored, else header and status move together |
| `Wrappers.Wrapper.EditMetaField` | replify.go:2720-2727 | the meta setters create meta when absent and change it field by field; a custom field goes into the map that is there, unless it is nil or empty |
| `Wrappers.Wrapper.SetDebuggingKV` | replify.go:2589-2595 | an entry goes into the debug map that is there, and so into the cached map that refers to it; an empty one is replaced |
| `Wrappers.Wrapper.EditPagination` | replify.go:2866-2872 | the pagination setters create pagination when absent, run on the Pagination object and refine their step |
| `Wrappers.Wrapper.SetCursor` | replify.go:2229-2232 | the cursor is replaced and the cache is left alone |
| `Wrappers.Wrapper.AppendErrorList` | replify.go:2376-2391 | the error field becomes the fold of the arguments |
| `Wrappers.Wrapper.BindMessage` | replify.go:2402-2414 | the message becomes an error, or annotates the one that is there |
| `Wrappers.Wrapper.SetLinkObject` | replify.go:3922-3932 | the link is stored, an empty collection is replaced, and the cache is reset |
| `Wrappers.Wrapper.SetReason` | replify.go:4031-4038 | the reason is replaced and the cache is reset |
| `Wrappers.Wrapper.ReleaseField` | replify.go:4044-4116 | each Release call clears its field and the cache |
| `Wrappers.Wrapper.StatusCode` | replify.go:106-114 | an unset status is taken from the header and stored |
| `Wrappers.Wrapper.AutoAdjustFields` | replify.go:4515-4547 | the in-place adjustment refines `Adjust`; its debug entry goes into the map that is there, else the cached map keeps the old one |
| `Wrappers.Wrapper.ComputeHash` | replify.go:4485-4501 | the hash is the key of the state after the lazy status, with digests for payload, debug map and custom fields; a value hashy refuses gives the empty key |
| `Wrappers.Wrapper.BuildMap` | replify.go:4566-4611 | the conditional stores leave exactly the cells that build prints, with the wrapper's own debug map, custom-field map and header map where these are not empty |
| `Wrappers.Wrapper.Respond` | replify.go:3478-3513 | adjust, hash, look up, build and store refine `Render`; the cached map refers to the three map objects and is read through them |
| `Wrappers.Wrapper.RespondIgnoring` | replify.go:3522-3538 | the deletion loop returns the rendered map without the named fields; blank names are skipped |
| `Unwrap.UnwrapJSON` | entry.go:91-394 | the parser fails exactly where `UnwrapText` does, and else leaves a fresh wrapper in the parsed state with an empty cache |
| `Unwrap.AcceptsIffObject` | entry.go:91-119 | a text of any origin is accepted exactly if it is not blank and, stripped of comments and normalized, is a JSON object with a field |
| `Unwrap.LenientText` | entry.go:91-119 | such a text is read like every JSON text of the same value |
| `Unwrap.ParseLinksLoop` | entry.go:310-347 | the loop over _links collects exactly the object-valued relations |
| `Unwrap.ParseTextsLoop` | entry.go:362-369 | the loop over the signature headers collects exactly the text-valued ones |
| `Unwrap.FieldReprints` | entry.go:176-394 | for every field the exact condition under which it prints the same after a parse |
| `Unwrap.PrintParsePrint` | entry.go:176-394 | build, unwrap, build is build, exactly when every field survives |
| `Unwrap.UnwrapReadsJSON` | entry.go:91-119 | the text JSON prints is accepted by UnwrapJSON and read field by field |
| `Unwrap.JsonRoundTripIff` | entry.go:91-119 | JSON, UnwrapJSON, JSON: the text is accepted exactly when the map can be encoded and is not empty, and comes back byte for byte exactly when every field survives as well |
| `Unwrap.LinksReprint` | links.go:583-594 | links print the same after a parse, and some link is left exactly when some link was available |
| `Unwrap.LinkReprints` | links.go:262-296 | a link prints the same after a parse |
| `Unwrap.MetaReprints` | meta.go:1268-1295 | meta prints the same after a parse exactly when its time reformats to the same text |
| `Unwrap.HeaderReprints` | header.go:210-228 | a header prints the same after a parse |
| `Unwrap.PagesReprint` | entry.go:249-274 | pagination is copied back field by field, without recalculation |
| `Unwrap.SignatureReprints` | signature.go:444-459 | a signature prints the same after a parse, header map included |
| `Signing.ApplySignature` | replify.go:4151-4176 | the call refines `Apply`: errors are skipped, failures land on header, message and error, success attaches the signature and resets the cache |
| `Signing.VerifySignature` | replify.go:4301-4325 | the call refines `Verify`, render included |
| `Signing.GenerateIff` | signature.go:1579-1625 | a signature is made exactly for a complete configuration and, under canonicalization, a text that could be encoded |
| `Signing.AcceptsIff` | signature.go:1734-1801 | a signature is accepted exactly for texts that are signed alike, with no headers configured and an age that allows it |
| `Signing.TamperedIff` | signature.go:1734-1801 | a signature changed after it was made, in any fields but not in both value and timestamp, is accepted exactly with the value made, the algorithm made or none, the timestamp made if timestamps are signed, and while that is recent enough |
| `Signing.TimestampSigned` | utilities.go:1407-1414 | a replaced timestamp is refused for every text |
| `Signing.OtherKeyRefused` | signature.go:1784-1795 | a signature is refused under every key whose codes differ from those of its own |
| `Signing.MadeWith` | signature.go:1579-1625 | algorithm, headers and timestamp of a signature that is made; the seven algorithms |
| `Signing.RefusedWith` | signature.go:1555-1625 | header, message and error of every refusal |
| `Signing.ApplyOutcome` | replify.go:4151-4176 | what signing changes: nothing on an error, signature and cache on success, header, status, message and error on a refusal |
| `Signing.VerifyOutcome` | replify.go:4301-4325 | verification renders and changes no more; an envelope with an error or without a signature is refused unrendered |
| `Signing.VerifiesIff` | replify.go:4301-4325 | whatever the cache holds, verification succeeds exactly when the re-rendered text is signed like the signed one |
| `Signing.SignThenVerify` | replify.go:4151-4176 | with an up-to-date cache sign-then-verify succeeds exactly when no issue is added after signing (or the map cannot be encoded) |
| `Signing.SignAgain` | replify.go:4131-4133 | signing again signs the same bytes, whatever signature is attached |
| `Runs.UpToDateAfterRun` | replify.go:3478-3513 | after a disciplined run without a blind render the cache is up to date, so the signing theorems apply |
| `Signing.StaleCursorBreaks` | replify.go:2229-2232 | after a render, WithCursor and ApplySignature, verification succeeds exactly if the cursor did not change |
| `Signing.CanonicalAgree` | utilities.go:1372-1390 | two printed maps are signed alike exactly when they agree byte for byte, or in value under canonicalization |
| `Signing.FieldReceived` | entry.go:176-394 | for every field the exact condition under which the receiver verifies what was signed |
| `Signing.SignPrintParseVerify` | replify.go:4151-4176 | sign, print, parse, verify succeeds exactly when headers and age allow it, no issue is added, and every signed field comes through |
| `Normalize.RunHSC` | norm.go:57-78 | the in-place stage refines `NormHSC` |
| `Normalize.RunMeta` | norm.go:89-125 | the in-place stage refines `NormMeta` |
| `Normalize.RunBody` | norm.go:136-237 | the in-place stage refines `NormBody` |
| `Normalize.RunMessage` | norm.go:247-275 | the in-place stage refines `NormMessage` |
| `Normalize.DropNils` | norm.go:284-302 | the loop deletes the nil entries from the debug map where it is, keeps exactly the others and reports whether it deleted any |
| `Normalize.RunAll` | norm.go:21-28 | the six stages in order refine `NormAll` and leave the cache alone |
| `Normalize.PassFields` | norm.go:21-28 | one pass, field by field, in terms of the state before it |
| `Normalize.NormTotal` | norm.go:136-217 | a total of 0 becomes the length of a payload of a counted slice type, else the total of pagination, else stays 0 |
| `Normalize.NormPages` | norm.go:219-237 | pagination without a total takes the new one; page count and flag then fit it |
| `Normalize.NormText` | norm.go:247-275 | a blank message becomes Informational, Successful, Redirection, Client Error or Server Error by the status |
| `Normalize.NormHeader` | norm.go:57-78 | a missing header is made from a positive status with its clamped code; one that is there stays |
| `Normalize.NormDefaults` | norm.go:89-125 | blank meta fields become en_US, v0.0.1, the drawn id and the present time; the others stay |
| `Normalize.NormRest` | norm.go:284-302 | exactly the nil debug entries are dropped, and every field NormAll does not name stays |
| `Normalize.NormalIffFixed` | norm.go:21-28 | normal states are exactly the fixpoints, up to the change counter |
| `Normalize.OnePassIff` | header.go:23-29 | one pass reaches a fixpoint exactly when a header is present or the status is unset or valid |
| `Normalize.TwoPassesSuffice` | norm.go:21-28 | from any state two passes reach a fixpoint, and all later passes move only the counter, by the churn each |
| `Normalize.NormKeeps` | norm.go:284-302 | any number of passes keeps debug entries that are not nil, totals that are not zero, messages that are not blank, and headers |
| `Normalize.SignalsMeanChange` | norm.go:57-302 | a stage signals exactly when it changed something, except for a header without code and for pagination |
| `Normalize.DeltaCounts` | replify.go:2720-2727 | one NormAll raises the counter by exactly the number of signalling stages |
| `Normalize.NormalRuns` | norm.go:38-44 | at a fixpoint k passes raise the counter by k times [pagination present] + [header with code <= 0] and change nothing else |
| `Normalize.BumpedWraps` | meta.go:1238-1241 | the counter after n increments is the 64-bit sum |
| `Middleware.RecoveryWriter.ServeHTTP` | middleware.go:84-110 | the handler's calls through both trackers refine `Drive` |
| `Middleware.Recover` | middleware.go:39-70 | the deferred function re-raises an abort and answers a panic only if nothing was written |
| `Middleware.Log` | middleware.go:170-209 | the logger's entry and the connection after a request refine `Serve` |
| `Middleware.Tracks` | middleware.go:84-110 | along every trace the byte counts agree and written says whether more than a flush happened |
| `Middleware.RepliesIff` | middleware.go:56-66 | Recovery answers exactly when a non-abort panic ends a handler that wrote neither head nor body |
| `Middleware.AnsweredPanic` | middleware.go:56-66 | the answer is logged as 500 with its bytes; the client gets it unless the handler flushed before |
| `Middleware.SecondHeadIff` | middleware.go:84-110 | the base writer gets a second head from Recovery exactly after a flush with nothing written |
| `Middleware.BytesAgree` | middleware.go:237-253 | the logged byte count is what the base writer accepted, and only an abort is not logged |
| `Middleware.ServeReads` | middleware.go:84-110 | for every handler, from its events alone: the status and bytes the client gets, and the status and bytes that are logged |
| `Middleware.StatusAgreesIff` | middleware.go:234-253 | the logged status is the committed one exactly for handlers whose first head is final and does not contradict an earlier flush |
| `Middleware.PlainHandlersFaithful` | middleware.go:234-253 | handlers without flush and with final heads only are always logged right |
| `Middleware.OrderMatters` | middleware.go:152-169 | both orders send the same response, but with Recovery outside a panicking request is not logged at all |
| `CloneHeap.CloneCopies` | replify.go:1816-1883 | the clone stands for the same state without nil links and with an empty cache, the original and its cached map are unchanged, and they share only the signature's header map |
| `CloneHeap.CloneKeepsFields` | replify.go:1821-1834 | field by field the clone has what the original has, errors and skipBody included; links are present in both or in neither |
| `CloneHeap.CloneKeepsLinks` | links.go:693-706 | each relation with a link is in the clone with an equal link, and no other |
| `CloneHeap.CopiedMeta` | meta.go:1577-1596 | meta, its custom fields and the debug map of a clone are new and equal |
| `CloneHeap.CopiedLinksView` | links.go:693-706 | the link collection and every link of a clone are new, nil links are dropped |
| `CloneHeap.CopiedSignature` | signature.go:719-730 | the signature struct of a clone is new, its header map is the same one |
| `CloneHeap.StepOwn` | replify.go:2589-2595 | each write, to a plain field, through a pointer, or replacing or clearing a pointer, does to the state and the cached map of its wrapper what its value function says: a write into a map that the cached map refers to shows there, and replacing it leaves it behind |
| `CloneHeap.StepOther` | replify.go:1816-1883 | and leaves the state and the cached map of a wrapper that shares nothing with it as they were |
| `CloneHeap.HeaderWriteLeaksIff` | signature.go:426-435 | a header written on the clone's signature changes the original exactly when both share a map and the entry is new |
| `CloneHeap.HeaderEditLeaksIff` | replify.go:1194-1196 | an edit through Header() changes another wrapper exactly when both have the same package-level header and the edit changes it |
| `CloneHeap.CloneBuildsSameIff` | links.go:693-706 | a clone prints what its original prints, unless the original has links and all of them are nil |
| `CloneRuns.StepTakes` | replify.go:2162-2169 | the writes a fluent call makes, one after the other, are the step that Envelope gives for it, the cached map's references included |
| `CloneRuns.NormTakes` | norm.go:21-28 | the writes of NormAll, pagination and debug map changed in place, are the pass that Normalize gives for it |
| `CloneRuns.PlanMeansCall` | replify.go:1816-1883 | the writes of every public call do what the call does, and none goes to a header map or a package-level header |
| `CloneRuns.RunsIndependent` | replify.go:1816-1883 | two wrappers apart stay apart and end in the snapshots their own moves alone lead to, for every interleaving |
| `CloneRuns.CloneIndependent` | replify.go:1816-1883 | after Clone, whatever calls and writes through handed-out pointers happen to both, each ends where its own alone lead to, unless a shared header map or a package-level header is written |
| `CloneRuns.CallsIndependent` | replify.go:1816-1883 | public calls on original and clone, interleaved in any way, are two separate runs, without condition |
| `CloneRuns.CloneRenders` | replify.go:3478-3513 | the clone renders what its own disciplined calls made of it, whatever is called on the original |
| `CloneRuns.PredefinedEditLeaksIff` | http.go:43-45 | once both made the same predefined call, an edit through the clone's Header() changes the original, unless it changes nothing |

## Left out

- CloneHeap.CloneCopies: Clone and the writes it is compared with are modelled on an explicit heap value, with one store for each type of struct, so that sharing can be stated; values nested inside debug and custom-field maps, the payload, errors and the request stay shared in Go and are immutable here.
- CauseWalk.CauseTerminatesIff: wrapper.Cause calls autoAdjust before it walks, and is modelled from there on; when an issue has to be made, the rootCause loop of autoAdjust (utilities.go:1166-1173) never ends on a cyclic Unwrap chain.
- CauseWalk.Cause: the visited map is keyed by the error itself, so an error of an uncomparable type panics in Go; errors are comparable here.
- Wrappers.Wrapper.EditMetaField: meta, cursor, header and the other records are fields held by value in the class; the debug map, the custom fields and the header map of the signature are objects, since the cached map refers to them; the pointers to the records are in CloneHeap.
- Wrappers.Wrapper.EditPagination: the class holds its pagination by value and runs the setter on a Pagination object made from it; the shared pointer is in CloneHeap.
- CloneRuns.CloneIndependent: a header edit through a package-level header is left out of the runs even where the other wrapper does not use that header now, since a later call may store it.
- Middleware.OrderMatters: the swapped order of the two middlewares is modelled on values only; the objects are the ones of the documented order.
- Wrappers.Wrapper.Respond: it returns the map as it reads at that moment, and later writes into the three maps, which a caller who kept it would see, are followed in the cached map only; the mutex itself is modelled in ConcurrentRender, on the abstract steps of the protocol, not in the class.
- ConcurrentRender.RespondConcurrently: fields and debug entries are settled while calls are under way, so the shared maps inside the built map are values there.
- Signing.SignPrintParseVerify: timestamps beyond the range of time.Time, and the request-bound variants that also sign headers, are not modelled.
- Bodies.PayloadRoundTrip: numbers written with an exponent, []rune, time, error, Stringer and custom Marshaler payloads are not modelled; a struct payload is given by its printed text.
- Library.TextsAgree: HTML escaping of <, > and & by json.Marshal is not modelled.
- Unwrap.UnwrapJSON: the debug map and custom fields hold plain JSON values, no raw texts and no structs.
- Pages.Pagination.Clone: aliasing of pagination objects between wrappers appears only in CloneHeap.
- WithLink: resolving an href against a stored request, and splitting a verb from variadic arguments; WithLinkObject stands for it.
- Changes that a caller makes to maps, structs and payloads after passing them to a setter, and to maps that Respond or an accessor returned.
- errors.Unwrap on error types of other packages: such an error is taken as its own innermost cause when autoAdjust words an issue.
- Stack traces, issue fingerprints, request ids and random deltas: opaque values.
- signature.go beyond GenerateSignature and VerifySignature, and the header, query and file transports.
- parser.go, fj, the Debugging and Custom accessors, the http.go shortcuts (one WithHeader each), option.go, docs.go, log.go, dump.go, report.go, stream.go and workergroup.go: accessors, formatting, I/O or separate subsystems.
- A nil wrapper: every method returns early; the model starts from an object.
- Calls on nil parts that panic in Go, such as a header written through a nil signature, are taken as no change.
