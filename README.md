# QuickAi request pipeline and object-removal form, in Dafny

This project models the two parts of the QuickAi SaaS application that carry their own
logic. Everything else in QuickAi is UI or calls to outside vendors.

1. **The AI request pipeline of the backend controller** (`server/controllers/aiController.js`).
   The state is one user's record (`plan`, `free_usage`) and the append-only `creations` table.
   Each of the six handlers runs in this order: gate, delegate call, INSERT, usage increment
   (only for the two usage-gated endpoints), response. Any exception becomes a 500 response.
   - Article and blog-title requests are gated by the free quota of 10 requests.
   - Image generation, background removal, object removal and resume review are premium only.
   - The resume handler also checks the file size, parses the PDF, and refuses blank text.
2. **The PDF text assembly** of the resume handler. Pages are joined by a blank line, the
   text items of a page by a space, and the runs of an item are concatenated and then
   URI-decoded.
3. **The object-removal page of the client** (`client/src/pages/RemoveObject.jsx`).
   - The image picker accepts `image/*` files of at most 5 MiB.
   - Before anything is sent, the submit handler checks in this order: a non-blank object
     name, then exactly one space-separated word, then an image.
   - The page keeps `input`, `preview`, `loading` and `content`.

Files:
- `outcomes.dfy`: `Option`, and `Outcome` (a call that returned or threw).
- `js_string.dfy`: the JavaScript string operations used: `trim` (ECMAScript white space
  and line terminators), `split` on one character, `startsWith` and `Array.prototype.join`.
- `pdf_text.dfy`: the parse tree handed to the resume handler and the text taken from it.
- `ai_controller.dfy`: the pipeline. There is one pure step function per handler, mapping
  the state before a request to the state after it and the response. This is the
  specification. The class `Server` keeps the same state in fields, and each handler method
  updates them step by step with early returns. Each method's postcondition proves it
  agrees with its step function. Lemmas over a sequence of gated requests cover the quota.
- `remove_object.dfy`: the page's validators as functions, and the page's state as the
  class `Form`. Its invariant says that every request attempted passed the submit checks.

The vendor calls are fields of the `Env` datatype, each a total function. These return a
value or throw:
- the chat-completion service (prompt, token budget);
- text-to-image generation plus upload;
- upload with background removal;
- plain upload;
- PDF parsing;
- the INSERT;
- the user-metadata write.

Two always return a value: URL building for a transformation, and `decodeURIComponent`.

Three behaviours of the code worth noting:
- The server never checks that the object name is one word. Only the client does, and the
  server accepts any `object` string (`AnyObjectNameAccepted`).
- The plan check is `plan !== "premium"`, so every other plan value is treated as free.
- An oversized resume and a resume without text are answered with status 200 and
  `success: false`. There is no distinct error status for them.

## Model

| member | source | states |
|---|---|---|
| `JsString.SkipSpaces` | client/src/pages/RemoveObject.jsx:42 | `Trim` starts here, the start of the trimmed text: every character before it (from the given index) is white space, and the character at it is not |
| `JsString.SkipSpacesBack` | client/src/pages/RemoveObject.jsx:42 | `Trim` ends here, the end of the trimmed text: every character from it up to the given end is white space, and the character before it is not |
| `JsString.TrimEmptyIffBlank` | server/controllers/aiController.js:242 | `!s.trim()` (`Trim(s) == ""`) holds exactly when every character of `s` is white space |
| `JsString.JoinLength` | server/controllers/aiController.js:230-234 | `join` of two or more parts starts with the first part followed by the separator; the join is empty exactly for no parts, one empty part, or only empty parts with an empty separator |
| `JsString.JoinSplitAt` | server/controllers/aiController.js:230-234 | `Join` (`Array.prototype.join`) splits at any inner boundary into the join of the first k parts, one separator, and the join of the rest |
| `JsString.JoinAvoids` | server/controllers/aiController.js:230-234 | a character in no part and not in the separator is not in the join |
| `JsString.JoinBlank` | server/controllers/aiController.js:230-234 | blank parts joined by a blank separator give a blank string |
| `JsString.Split` | client/src/pages/RemoveObject.jsx:43 | `split` on one character gives one more piece than there are separators, and no piece holds the separator |
| `JsString.IndexOf` | client/src/pages/RemoveObject.jsx:43 | the position of the first separator: it holds the separator and no earlier position does |
| `JsString.JoinSplit` | client/src/pages/RemoveObject.jsx:43 | joining the pieces of a split with the separator gives the string back |
| `JsString.SplitAfterPiece` | client/src/pages/RemoveObject.jsx:43 | a leading piece without the separator comes off as the first element of the split |
| `JsString.SplitJoin` | client/src/pages/RemoveObject.jsx:43 | split undoes join when no part holds the separator |
| `JsString.SplitHasSeveralPieces` | client/src/pages/RemoveObject.jsx:43 | `split(' ').length > 1` holds exactly when the string contains a space |
| `PdfText.ExtractText` | server/controllers/aiController.js:230-236 | `PagesOf` is `pdfData?.formImage?.Pages`: a missing link gives ""; otherwise the `PageText`s (each the `ItemText`s joined by a space) are joined by "\n\n", and the text is empty exactly when there are no pages, or one page with no text |
| `PdfText.SinglePageHasNoLineBreak` | server/controllers/aiController.js:230-236 | a one-page document whose decoded items hold no "\n" gives text without "\n": the blank line appears only between pages |
| `PdfText.PageBoundary` | server/controllers/aiController.js:230-236 | the first k pages and the other pages are separated by exactly one "\n\n" |
| `PdfText.BlankItemsGiveBlankText` | server/controllers/aiController.js:230-242 | when every decoded item is blank, the trimmed text is empty, so the handler refuses the document |
| `AiController.ReviewPrompt` | server/controllers/aiController.js:249 | the review prompt starts with the fixed instruction and ends with the whole extracted text, nothing between or after |
| `AiController.Complete` | server/controllers/aiController.js:57-69 | after the gate: a throwing delegate or INSERT answers 500 with nothing changed; when both return, exactly that row is added and, unless a counted free-plan request's metadata write throws, the answer is 200 with the delegate's output; on a counted free-plan request a throwing metadata write answers 500 with its message, keeps the row and leaves the counter as it was; any other failure changes nothing; the counter grows by one only on a counted free-plan request, only after the row, and never with a 500 |
| `AiController.GatedStep` | server/controllers/aiController.js:16-95 | article/blog-title, gated by `CheckFreeUsage`: 403 exactly when the plan is not "premium" and `free_usage >= 10`, with nothing changed; a success adds one row of the endpoint's type holding the chat output and raises a free plan's counter by one; once the gate passes and the chat call, the INSERT and (on a free plan) the metadata write return, the answer is 200 with the chat output; no failure changes the counter |
| `AiController.ImageStep` | server/controllers/aiController.js:97-138 | non-premium callers get 403 "Premium feature only." with nothing changed; a throwing generation or INSERT answers 500 with its message; every failure is a 403 or a 500 and leaves the state unchanged; a premium call whose generation and INSERT return answers 200 with the hosted URL; a success stores the hosted URL with type "image" and `publish ?? false`; the counter is never touched |
| `AiController.BackgroundStep` | server/controllers/aiController.js:140-171 | premium only; a missing file, a throwing upload or a throwing INSERT is a 500 with that message; every failure is a 403 or a 500 and leaves the state unchanged; a premium call whose upload and INSERT return answers 200 with the hosted URL; a success stores the hosted URL under the prompt "Remove background from image"; the counter is never touched |
| `AiController.ObjectStep` | server/controllers/aiController.js:173-203 | premium only; a missing file, a throwing upload or a throwing INSERT is a 500 with that message; every failure is a 403 or a 500 and leaves the state unchanged; once the upload and the INSERT return the answer is 200; a success answers and stores the URL of the `gen_remove:<object>` transformation of the upload, under the prompt "Removed <object> from image"; the counter is never touched |
| `AiController.ResumeStep` | server/controllers/aiController.js:205-262 | checks in the order plan, file size (over 5 MiB refused with 200, exactly 5 MiB passes), parse, blank text, each failure leaving the state unchanged; the only 200 refusals are the size and no-text messages; on a non-blank text a throwing chat call or INSERT is a 500 with its message; when the parse, the chat call and the INSERT return on a non-blank text of an accepted file, the answer is 200 with the review; a success was asked for with the extracted text at 1000 tokens and stores one "resume-review" row |
| `AiController.GatedRequestCounted` | server/controllers/aiController.js:16-35 | a free plan under the limit, with services that do not throw, gets a success that adds one row and one use |
| `AiController.FreeQuota` | server/controllers/aiController.js:16-35 | on a free plan with services that do not throw, the first `10 - free_usage` gated requests succeed, each adding one row and one use, and every later one gets the 403 limit response |
| `AiController.TenThenLimit` | server/controllers/aiController.js:16-35 | from `free_usage = 0` on a free plan, ten requests succeed and the eleventh is refused, leaving the counter at 10 |
| `AiController.QuotaBound` | server/controllers/aiController.js:16-69 | whatever the services do, a free plan's counter ends at its start plus the number of successful gated requests (`Successes`), and at most `10 - free_usage` of them succeed |
| `AiController.PremiumUnlimited` | server/controllers/aiController.js:16-35 | a premium caller never gets a 403 from the quota and the counter never changes |
| `AiController.GatedFailures` | server/controllers/aiController.js:57-69 | a throwing chat call or INSERT answers 500 with nothing changed; a throwing metadata write answers 500, keeps the inserted row and leaves the counter as it was |
| `AiController.AnyObjectNameAccepted` | server/controllers/aiController.js:186-198 | the server removes and records any object name, several words included |
| `AiController.Server.constructor` | server/controllers/aiController.js:53 | the server state starts as the given user record and table |
| `AiController.Server.Insert` | server/controllers/aiController.js:59-62 | the table gains the row exactly when the INSERT returns; the user record is untouched |
| `AiController.Server.IncrementUsage` | server/controllers/aiController.js:27-35 | as `IncrementedUsage`: on a free plan the counter becomes its request-time value plus one unless the metadata write throws; a premium record is untouched |
| `AiController.Server.Finish` | server/controllers/aiController.js:57-69 | the shared tail of every handler behaves as `Complete` |
| `AiController.Server.GenerateArticle` | server/controllers/aiController.js:49-71 | behaves as `GatedStep` with type "article" and `MaxTokens(length)` as token budget: the requested length, 500 when absent |
| `AiController.Server.GenerateBlogTitle` | server/controllers/aiController.js:73-95 | behaves as `GatedStep` with type "blog-title" and a budget of 100 tokens |
| `AiController.Server.GenerateImage` | server/controllers/aiController.js:97-138 | behaves as `ImageStep` |
| `AiController.Server.RemoveImageBackground` | server/controllers/aiController.js:140-171 | behaves as `BackgroundStep` |
| `AiController.Server.RemoveImageObject` | server/controllers/aiController.js:173-203 | behaves as `ObjectStep` |
| `AiController.Server.ResumeReview` | server/controllers/aiController.js:205-262 | behaves as `ResumeStep` |
| `RemoveObjectPage.FileError` | client/src/pages/RemoveObject.jsx:19-30 | a file is kept exactly when its type starts with "image/" (`StartsWith`) and its size is at most 5 MiB; the type check's message comes first |
| `RemoveObjectPage.SubmitError` | client/src/pages/RemoveObject.jsx:40-44 | a submission goes out exactly when the name is not blank, its trimmed form has no space, and an image is present; otherwise the first failing check in that order gives the error |
| `RemoveObjectPage.TwoWordsRefused` | client/src/pages/RemoveObject.jsx:43 | "red car" is refused as several names |
| `RemoveObjectPage.TabSeparatedAccepted` | client/src/pages/RemoveObject.jsx:43 | a tab between two words passes, since only the space counts |
| `RemoveObjectPage.PaddedNameAccepted` | client/src/pages/RemoveObject.jsx:42-43 | " car " passes the checks |
| `RemoveObjectPage.Form.constructor` | client/src/pages/RemoveObject.jsx:10-14 | no image, empty name, spinner off, no content, no preview |
| `RemoveObjectPage.Form.SetObjectName` | client/src/pages/RemoveObject.jsx:107 | only the name changes |
| `RemoveObjectPage.Form.HandleFiles` | client/src/pages/RemoveObject.jsx:19-30 | a rejected file shows its error and leaves `input` and `preview` as they were; an accepted one becomes `input` with its object URL as `preview` |
| `RemoveObjectPage.Form.OnDrop` | client/src/pages/RemoveObject.jsx:32-38 | only the first dropped file is handled; an empty drop changes nothing |
| `RemoveObjectPage.Form.OnSubmit` | client/src/pages/RemoveObject.jsx:40-63 | a failed check shows its error and sends nothing; otherwise the attempt is recorded and the image and the untrimmed name are posted, `content` changes only on `success`, other answers and thrown errors become toasts, and the spinner is off at the end |

## Left out

- The vendor calls (the chat client, ClipDrop, Cloudinary upload and URL building, the
  Base64 encoding) are opaque `Env` functions. What they compute is not modelled.
- The identity provider: `req.auth()`, the middleware that puts `plan` and `free_usage` on the
  request, and the metadata write are not modelled. The user record is plain fields, and the
  write is an assignment that may throw.
- The SQL engine is the `insert` outcome: a row is added or the call throws.
- `fs.readFileSync` and the PDF parser's event callbacks are one `parsePdf` outcome. A `Texts` array missing from a page is not modelled.
- `decodeURIComponent` is an opaque total function. The URIError it throws on a malformed
  escape is not modelled.
- `free_usage` is a natural number. A missing counter (`undefined`) is not modelled.
- `body.publish` is either a boolean or absent. Other JSON values are not modelled.
- `body.length` is either a number or absent (absent gives the chat helper's default of
  500 tokens). A `null` length, passed on as is, is not modelled.
- Concurrency: requests are handled one at a time. The race between two requests of one free
  user, which lets them exceed the quota, is not modelled.
- The handlers that list published creations and toggle likes are not part of this model,
  so the like round trip is not modelled either.
- The other client pages (article, blog titles, image generation, background removal,
  resume review, community) only have non-empty checks and rendering state.
- Logging (`console.error`), toasts as UI, JSX rendering, styling, the DOM side of drag and
  drop, and the browser's `required` check on the text area are not modelled.
- The picker handler reading `files[0]` when no file was chosen is not modelled.
- The HTTP call from the page is one `post` outcome. A non-2xx answer, including the
  server's 403 and 500, arrives as a thrown error, as axios does it. The token fetch is
  part of that outcome.
- `onSubmitHandler` is modelled as one step. The wait for the token and the answer is not
  modelled: during it `loading` is true, the button is disabled, and the user may still edit
  the name or pick another image.
