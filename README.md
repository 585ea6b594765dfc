# Customer-management client rules, in Dafny

This project models the deterministic core of a React client for a small
shop's customer records, and proves properties of that model. The core covers:

- the creation form: the CPF input mask, the signature compression
  `compressToWebP`, and the payload-driven recompression of `addCustomer`
  together with its submission gates and error messages;
- the camera widget: its frame compression and its four-step state machine;
- the edit page: date truncation, the proportional resize of the signature,
  and the choice of the image to send;
- the customer list: the search and date filter, the return status, the
  visibility toggles and the count badges;
- the registration form's ordered validation.

Everything the browser does is a parameter of the model:

- `canvas.toDataURL` is an `Encoder` function to strings;
- the size `Image.onload` reports is a `string -> Dims` function on the edit
  page (`CustomerUpdate.ImageSize`); on the creation form and in the camera
  the decoded image is the pad's 500x200 export (`PadSize`) or the 640x480
  screenshot (`ScreenshotSize`), and each later compression pass decodes the
  previous pass's output at the canvas size it was encoded on
  (`Picture.size`), which assumes that an encoded data URL decodes at its
  canvas's size;
- `JSON.stringify(...).length` is a `CustomerRecord -> nat` function;
- the CPF checksum library is a `string -> bool` predicate;
- the server's answers are functions from the request body to a result;
- today's date and the end-of-day adjustment are parameters.

Image quality is kept in integer hundredths, so 0.3 is 30 and
`Math.max(0.1, q - 0.15)` is `Max(10, q - 15)`. `Math.round(a * b / c)` on
non-negative integers is `(2ab + c) / (2c)`. `resizeImage` is modelled over
exact reals.

Modules follow the components:

- `Common`: digit stripping, rounding, `startsWith`/`includes`, ASCII lower case;
- `Imaging`: the dimension rule and the WebP-to-JPEG fallback shared by both
  `compressToWebP` copies;
- `CpfMask`;
- `CustomerManagement`;
- `CameraCapture`;
- `CustomerUpdate`;
- `CustomerList`;
- `Register`.

Components whose handlers step through state are classes:

- `CustomerManagement.Form`;
- `CameraCapture.Camera`;
- `CustomerUpdate.UpdateForm`;
- `CustomerList.ListView`;
- `Register.RegisterForm`.

Their methods state the whole new state. Code that reassigns local variables
step by step is a method proved against a specification function:

- `CompressToWebP` against `Compressed`;
- `CompressForPayload` against `Escalation`;
- `CompressFrame` against `FitWithin` and `PreferredEncoding`;
- `ResizeImage` against `FitScale`.

Where the code and the behaviour its comments suggest differ, the model
follows the code, with one exception: the form's reset after a created
customer is modelled as intended, and the code's lost reset is shown under
"## Findings". Otherwise:

- Later passes of `addCustomer` recompress the previous pass's output, not
  the original drawing (`CustomerManagement.Escalation`).
- A later pass can give a longer string than the one before it, because
  nothing keeps the shorter one (`CustomerManagement.EscalationMayGrow`).
- The dimension rule bounds only the side it tests. A landscape source keeps
  a height above `maxHeight` (`Imaging.FitLandscapeIgnoresHeight`).
- The retry of `compressToWebP` falls back to JPEG only on the exact empty
  PNG URL, not on every PNG answer as the first encoding does. Where WebP is
  unsupported, a shorter full PNG can therefore be returned
  (`CustomerManagement.RetryMayReturnPng`).

## Model

| member | source | states |
|---|---|---|
| Common.OnlyDigits | src/components/CustomerManagement.jsx:38 | the stripped value is all digits and no longer than the input |
| Common.OnlyDigitsAppend | src/components/CustomerManagement.jsx:38 | stripping two strings joined is joining their stripped forms |
| Common.OnlyDigitsOfDigits | src/components/CustomerManagement.jsx:38 | a string of digits is left unchanged |
| Common.RoundedQuotient | src/components/CustomerManagement.jsx:72 | the result is within half a unit of a*b/c, halves rounded up, as Math.round does |
| Common.StartsWith | src/components/CustomerManagement.jsx:98 | `s.startsWith(p)`: p is the prefix of s of its length |
| Common.Includes | src/components/CustomerList.jsx:97-98 | `s.includes(t)`, as a search from each position in turn |
| Common.WindowAt | src/components/CustomerList.jsx:97-98 | t occurs in s at position k |
| Common.IncludesAt | src/components/CustomerList.jsx:97-98 | a string includes every one of its windows |
| Common.IncludesHasWindow | src/components/CustomerList.jsx:97-98 | a string includes t only if t is one of its windows |
| Common.IncludesIff | src/components/CustomerList.jsx:97-98 | includes holds exactly when t is a window of s |
| Common.Utf16Length | src/components/Register.jsx:21-25 | JavaScript's length in UTF-16 code units: at least the number of characters and at most twice it |
| Common.Utf16LengthOfBmp | src/components/Register.jsx:21-25 | on characters of the Basic Multilingual Plane it is the number of characters |
| Common.LowerChar | src/components/CustomerList.jsx:97 | each upper-case ASCII letter becomes its own lower-case letter (code point plus 32), other characters are kept |
| Common.Lower | src/components/CustomerList.jsx:97 | lower-casing keeps the length and maps every character |
| Imaging.FitWithin | src/components/CustomerManagement.jsx:67-80 | the dimension rule of both compressToWebP copies (also src/components/CameraCapture.jsx:26-40), characterised by the Fit lemmas below |
| Imaging.FitLandscape | src/components/CustomerManagement.jsx:70-74 | a landscape source wider than the bound gets exactly maxWidth, and its height keeps the aspect ratio to within half a pixel |
| Imaging.FitPortrait | src/components/CustomerManagement.jsx:75-79 | a portrait or square source taller than the bound gets exactly maxHeight, and its width keeps the aspect ratio to within half a pixel |
| Imaging.FitBoundsTestedSide | src/components/CustomerManagement.jsx:67-80 | only the tested side is bounded; a source within its tested bound is returned unchanged |
| Imaging.FitLandscapeIgnoresHeight | src/components/CustomerManagement.jsx:70-74 | a 300x250 source keeps height 250 under a 300x200 bound |
| Imaging.FitNeverUpscales | src/components/CustomerManagement.jsx:67-80 | neither side ever grows |
| Imaging.FitKeepsOrientation | src/components/CustomerManagement.jsx:67-80 | landscape stays landscape and portrait stays portrait |
| Imaging.ShrunkSide | src/components/CustomerManagement.jsx:72 | rounding a*b/c with b < c never exceeds a |
| Imaging.RoundedAtMostScale | src/components/CustomerManagement.jsx:77 | rounding a*b/c with a <= c never exceeds b |
| Imaging.RoundedSquare | src/components/CustomerManagement.jsx:77 | a square source scales to exactly the bound on both sides |
| Imaging.PreferredEncoding | src/components/CustomerManagement.jsx:95-101 | a WebP answer starting with the PNG prefix is replaced by the JPEG encoding at the same quality; any other answer is kept |
| CpfMask.Format | src/components/CustomerManagement.jsx:38-43 | the strip followed by the four replaces, as handleChange applies them; its closed form is FormatIsGrouped |
| CpfMask.GroupDot | src/components/CustomerManagement.jsx:40-41 | without a four-digit run the string is kept; otherwise a dot is inserted after the first three digits of the leftmost run and nothing else changes |
| CpfMask.GroupDash | src/components/CustomerManagement.jsx:42 | without a four-digit run the string is kept; otherwise a dash is inserted after the first three digits of the leftmost run and nothing else changes |
| CpfMask.TrimTail | src/components/CustomerManagement.jsx:43 | without a dash followed by three or more final digits the string is kept; otherwise it is cut two digits after that dash |
| CpfMask.FourDigitsAt | src/components/CustomerManagement.jsx:40 | a found position has four digits in a row and no earlier position from the start has; no result means no four-digit run exists |
| CpfMask.DashTail | src/components/CustomerManagement.jsx:43 | a found position is the leftmost dash followed by at least three characters that are all digits up to the end; no result means no such dash exists |
| CpfMask.Truncated | src/components/CustomerManagement.jsx:43 | the result is the prefix of the digits of length min(n, 11) |
| CpfMask.FormatOfDigits | src/components/CustomerManagement.jsx:39-43 | on a string of digits the four replaces give the ddd.ddd.ddd-dd layout of its first eleven digits |
| CpfMask.FormatIsGrouped | src/components/CustomerManagement.jsx:37-43 | the whole mask equals the layout of the first eleven digits of any typed value |
| CpfMask.GroupedDigits | src/components/CustomerManagement.jsx:39-42 | the layout adds only separators, and is at most 14 characters long |
| CpfMask.FormatKeepsDigits | src/components/CustomerManagement.jsx:38-43 | the mask's digits are exactly the first min(n, 11) typed digits in order, and its length fits the maxLength of 14 |
| CpfMask.FormatSeparators | src/components/CustomerManagement.jsx:39-42 | under four digits the value is bare; a dot follows digit 3 from four digits, a dot follows digit 6 from seven, a dash follows digit 9 from ten |
| CpfMask.FormatIdempotent | src/components/CustomerManagement.jsx:38-43 | masking the masked value returns it unchanged |
| CustomerManagement.WithField | src/components/CustomerManagement.jsx:44-46 | the named field takes the value and every other field is unchanged |
| CustomerManagement.WithFloor | src/components/CustomerManagement.jsx:82-84 | each side is raised to its floor (80 wide, 60 high) on its own when below it and kept otherwise |
| CustomerManagement.LowerQuality | src/components/CustomerManagement.jsx:107 | the retry quality is the larger of 0.1 and the quality less 0.15 |
| CustomerManagement.RetryEncoding | src/components/CustomerManagement.jsx:108-110 | the retry is the WebP encoding unless that is exactly the empty PNG URL, and the JPEG encoding at the same quality when it is |
| CustomerManagement.Compressed | src/components/CustomerManagement.jsx:59-118 | the size is the floored fit; a first encoding up to 6000 characters is returned; otherwise the result is the first or the retry, never longer than either, and the first when the retry is not shorter |
| CustomerManagement.CompressToWebP | src/components/CustomerManagement.jsx:59-118 | the stepwise computation yields exactly Compressed |
| CustomerManagement.RetryMayReturnPng | src/components/CustomerManagement.jsx:106-112 | a full PNG retry answer shorter than a long first result is what is returned |
| CustomerManagement.Submitted | src/components/CustomerManagement.jsx:145-149 | the sent record carries the candidate signature and the digits of the form's CPF, and every other field is the form's |
| CustomerManagement.Pass | src/components/CustomerManagement.jsx:141-161 | one compressToWebP call with the quality and bounds of the given pass of the schedule |
| CustomerManagement.Escalation | src/components/CustomerManagement.jsx:141-163 | one to three passes; each pass recompresses the previous output with its settings; every pass before the last left the payload over 25000, and stopping early means the last is within it |
| CustomerManagement.CompressForPayload | src/components/CustomerManagement.jsx:140-163 | the number of compressions and the final image are those of Escalation |
| CustomerManagement.PadEscalationSizes | src/components/CustomerManagement.jsx:141-161 | the 500x200 pad becomes 300x120, then 200x80, then 150x60 |
| CustomerManagement.EscalationMayGrow | src/components/CustomerManagement.jsx:151-162 | a later pass may return a longer string than the previous one |
| CustomerManagement.FailureMessage | src/components/CustomerManagement.jsx:202-208 | 413 gives the signature-too-large message; otherwise the server's non-empty message, else the generic one with the error text |
| CustomerManagement.TooLargeIsDistinct | src/components/CustomerManagement.jsx:203-207 | a failure other than 413 never shows the too-large message unless the server sent that text |
| CustomerManagement.Settled | src/components/CustomerManagement.jsx:183-197 | React keeps the last record passed to setNewCustomer in one handler |
| CustomerManagement.AfterCreatedAsWritten | src/components/CustomerManagement.jsx:183-197 | the form after a 201 as written: the reset, then the stale `{ ...newCustomer, signature: "" }` of :55 |
| CustomerManagement.CreatedResetIsLost | src/components/CustomerManagement.jsx:183-197 | as written, the form after a 201 holds the submitted record without its signature, not the empty form |
| CustomerManagement.AfterCreated | src/components/CustomerManagement.jsx:185-196 | with the signature cleared on the latest record, the form after a 201 is the empty form |
| CustomerManagement.Form.constructor | src/components/CustomerManagement.jsx:9-24 | empty record, no messages, not loading, empty pad |
| CustomerManagement.Form.HandleChange | src/components/CustomerManagement.jsx:33-51 | the cpf field stores the mask of the typed value, other fields the value; the error is cleared; nothing else changes |
| CustomerManagement.Form.Draw | src/components/CustomerManagement.jsx:345-352 | a drawing on the pad changes only the pad |
| CustomerManagement.Form.HandleClearSignature | src/components/CustomerManagement.jsx:53-56 | the pad is empty and only the signature field is blanked |
| CustomerManagement.Form.AddCustomer | src/components/CustomerManagement.jsx:120-213 | an invalid CPF, then an empty pad, stops before any compression or POST with its message; otherwise the Escalation result is sent with a digits-only CPF; 201 shows success and gives the corrected empty form (AfterCreated), not the code's lost reset; a failure shows FailureMessage; loading ends false |
| CameraCapture.CompressFrame | src/components/CameraCapture.jsx:17-64 | the frame is encoded with fallback at the 250x200 fit, with no floor and no retry |
| CameraCapture.ScreenshotFrameSize | src/components/CameraCapture.jsx:72-79 | the 640x480 screenshot is drawn at 250x188 |
| CameraCapture.SmallFrameKeepsSize | src/components/CameraCapture.jsx:26-40 | a 100x50 frame keeps its size, since there is no minimum |
| CameraCapture.Truthy | src/components/CameraCapture.jsx:91 | JavaScript truthiness of imgSrc: held and not empty |
| CameraCapture.Controls | src/components/CameraCapture.jsx:98-131 | activation only while off; capture only while on with no photo; retake and save together only while a photo is held |
| CameraCapture.Camera.Buttons | src/components/CameraCapture.jsx:98-131 | since a photo is only held while the camera is on, the save button shows exactly when a truthy photo is held, and the activation button never beside a photo |
| CameraCapture.Camera.constructor | src/components/CameraCapture.jsx:7-8 | camera off, no photo, nothing delivered |
| CameraCapture.Camera.ActivateCamera | src/components/CameraCapture.jsx:66-68 | the camera is on and the photo and deliveries are unchanged |
| CameraCapture.Camera.Capture | src/components/CameraCapture.jsx:70-84 | the preview becomes the compressed 250x188 frame, with no frame leaving it unchanged; onCapture is not called; the camera stays on |
| CameraCapture.Camera.Retake | src/components/CameraCapture.jsx:86-88 | the photo is dropped and nothing else changes |
| CameraCapture.Camera.SaveImage | src/components/CameraCapture.jsx:90-94 | onCapture receives the photo exactly when a non-empty photo and a callback exist; otherwise nothing happens |
| CameraCapture.CaptureAndSave | src/components/CameraCapture.jsx:66-94 | activate, capture and save from a fresh widget deliver exactly the compressed frame |
| CustomerUpdate.BeforeFirstT | src/components/CustomerUpdate.jsx:33-34 | the result is the longest prefix without 'T': the whole string, or the text before the first 'T' |
| CustomerUpdate.BeforeFirstTOfPlain | src/components/CustomerUpdate.jsx:33-34 | a string without 'T' is kept whole |
| CustomerUpdate.BeforeFirstTIdempotent | src/components/CustomerUpdate.jsx:33-34 | cutting twice is cutting once |
| CustomerUpdate.BeforeFirstTOfTimestamp | src/components/CustomerUpdate.jsx:33-34 | a day followed by 'T' and a time is cut to the day |
| CustomerUpdate.DateOnly | src/components/CustomerUpdate.jsx:33-34 | an absent date gives "", a present one its text before the first 'T' |
| CustomerUpdate.Normalized | src/components/CustomerUpdate.jsx:30-35 | the fetched record keeps the server's fields with both dates cut to the day |
| CustomerUpdate.FitScale | src/components/CustomerUpdate.jsx:58-66 | the scale factor is between 0 and 1 |
| CustomerUpdate.FitScaleFits | src/components/CustomerUpdate.jsx:58-66 | both scaled sides are within their bounds, and unless nothing is scaled one meets its bound |
| CustomerUpdate.FitScaleIsLargest | src/components/CustomerUpdate.jsx:58-66 | no larger factor of at most 1 fits both bounds |
| CustomerUpdate.FitScaleWithinBounds | src/components/CustomerUpdate.jsx:58-66 | a source within both bounds is not scaled |
| CustomerUpdate.ResizeImage | src/components/CustomerUpdate.jsx:49-66 | the two guarded steps scale both sides by FitScale, so the aspect ratio is exact and both bounds hold |
| CustomerUpdate.ResizeSteps | src/components/CustomerUpdate.jsx:59-66 | the width step followed by the height step is the scale by FitScale |
| CustomerUpdate.ScaleByWidth | src/components/CustomerUpdate.jsx:59-66 | a too-wide source whose scaled height fits is scaled by maxWidth / width |
| CustomerUpdate.ScaleByHeight | src/components/CustomerUpdate.jsx:59-66 | a too-high source that is not too wide, or still too high after the width step, is scaled by maxHeight / height |
| CustomerUpdate.WidthStepOnly | src/components/CustomerUpdate.jsx:59-62 | when only the width step applies, its result is the source scaled by FitScale |
| CustomerUpdate.HeightStepOnly | src/components/CustomerUpdate.jsx:63-66 | when only the height step applies, its result is the source scaled by FitScale |
| CustomerUpdate.BothSteps | src/components/CustomerUpdate.jsx:59-66 | when both steps apply, the result is the source scaled by FitScale (maxHeight / height) |
| CustomerUpdate.ResizedCanvas | src/components/CustomerUpdate.jsx:58-69 | each side of the canvas is the integer part of the exact scaled side (`IntegerPartOf` of ScaledWidth and ScaledHeight), so it fits the given bounds and never exceeds the source |
| CustomerUpdate.ScaledWidth | src/components/CustomerUpdate.jsx:58-66 | the exact width after both steps is the source width times the fit factor, within maxWidth and the source width |
| CustomerUpdate.ScaledHeight | src/components/CustomerUpdate.jsx:58-66 | the exact height after both steps is the source height times the fit factor, within maxHeight and the source height |
| CustomerUpdate.ScaledSide | src/components/CustomerUpdate.jsx:68-69 | `canvas.width = width` keeps the integer part of a scaled side: n <= x < n + 1, within the bound and the source side |
| CustomerUpdate.Resized | src/components/CustomerUpdate.jsx:49-76 | the PNG encoding of the image drawn on a canvas within 300x100 |
| CustomerUpdate.WithEdit | src/components/CustomerUpdate.jsx:44-47 | only the edited field changes; name, CPF and signature are kept |
| CustomerUpdate.ChosenImage | src/components/CustomerUpdate.jsx:81-84 | a pad drawing wins over the stored signature |
| CustomerUpdate.UpdateForm.constructor | src/components/CustomerUpdate.jsx:11-21 | blank record, no error, empty pad |
| CustomerUpdate.UpdateForm.Load | src/components/CustomerUpdate.jsx:24-42 | a response replaces the record with its normalized form; a failure changes nothing |
| CustomerUpdate.UpdateForm.HandleChange | src/components/CustomerUpdate.jsx:44-47 | the record takes the edit and nothing else changes |
| CustomerUpdate.UpdateForm.Draw | src/components/CustomerUpdate.jsx:155-158 | a drawing on the pad changes only the pad |
| CustomerUpdate.UpdateForm.ClearPad | src/components/CustomerUpdate.jsx:160 | only the pad is wiped |
| CustomerUpdate.UpdateForm.HandleCameraCapture | src/components/CustomerUpdate.jsx:110-118 | only the signature field changes, to the photo, and the pad is wiped |
| CustomerUpdate.UpdateForm.HandleSubmit | src/components/CustomerUpdate.jsx:78-108 | no PUT, with the required-image message, exactly when the chosen image and the stored one are both empty; otherwise the record with the resized chosen image is sent; success navigates, failure shows the prefixed error |
| CustomerUpdate.SubmitAfterDrawing | src/components/CustomerUpdate.jsx:81-88 | a drawing made after loading wins over the stored image and is what the next submit sends, resized |
| CustomerUpdate.SubmitAfterCapture | src/components/CustomerUpdate.jsx:110-118 | a photo taken after loading is what the next submit sends, resized |
| CustomerList.MatchesSearch | src/components/CustomerList.jsx:96-98 | true exactly when the lower-cased term occurs at some position of the lower-cased name, or the term as typed at some position of the CPF |
| CustomerList.MatchesDate | src/components/CustomerList.jsx:101-114 | true exactly when each set bound holds for a present purchase date: on or after the start, on or before the end of the end day |
| CustomerList.DateBoundsInclusive | src/components/CustomerList.jsx:104-114 | a purchase on the start day and end day is kept |
| CustomerList.MissingPurchaseDate | src/components/CustomerList.jsx:101-114 | without a purchase date a customer passes exactly when no bound is set |
| CustomerList.Keeps | src/components/CustomerList.jsx:94-117 | the filter callback: the search test and the date test both hold |
| CustomerList.Filter | src/components/CustomerList.jsx:94-117 | a customer is in the result exactly when it is in the list and passes both tests, and appears as many times as in the list; it is no longer than the list |
| CustomerList.FilterIsSubsequence | src/components/CustomerList.jsx:94-117 | the result keeps the list's order |
| CustomerList.EmptyQueryKeepsAll | src/components/CustomerList.jsx:94-117 | an empty search with no dates keeps the whole list |
| CustomerList.SearchIgnoresNameCase | src/components/CustomerList.jsx:96-98 | names and terms that lower-case alike match alike, for every customer whose CPF does not contain the term |
| CustomerList.CustomerStatus | src/components/CustomerList.jsx:119-129 | pending exactly when a return date is set and not after today; active otherwise, also without a return date |
| CustomerList.StatusLabel | src/components/CustomerList.jsx:119-129 | "Pendente" exactly for pending and "Ativo" exactly for active |
| CustomerList.PendingLabel | src/components/CustomerList.jsx:224-231 | the status column reads "Pendente" exactly when a return date is set and not after today |
| CustomerList.StatusMonotone | src/components/CustomerList.jsx:119-129 | a pending customer stays pending on later days |
| CustomerList.InitialVisibility | src/components/CustomerList.jsx:30-33 | every customer id is a key, every key is some customer's id, every entry is false |
| CustomerList.Visible | src/components/CustomerList.jsx:270 | `showPassword[customer._id]` read as a boolean, an absent entry hiding |
| CustomerList.Toggled | src/components/CustomerList.jsx:75-87 | the entry flips (an absent entry becomes true) and every other entry is unchanged |
| CustomerList.ToggleTwice | src/components/CustomerList.jsx:75-87 | toggling twice restores what is shown, and the map itself when the entry existed |
| CustomerList.CountBadges | src/components/CustomerList.jsx:197-207 | the count only for a non-empty result, the total only when the result also differs from the list's length |
| CustomerList.TotalBadgeMeansHidden | src/components/CustomerList.jsx:197-207 | the total badge over a filter result means some customer was hidden |
| CustomerList.ListView.constructor | src/components/CustomerList.jsx:8-16 | empty list, empty filters, empty maps, loading |
| CustomerList.ListView.Load | src/components/CustomerList.jsx:24-45 | a response replaces the list and hides every password; a failure sets the error; loading ends |
| CustomerList.ListView.SetQuery | src/components/CustomerList.jsx:63-73 | only the filter inputs change |
| CustomerList.ListView.ToggleShowPassword | src/components/CustomerList.jsx:75-80 | only the password map changes, by Toggled |
| CustomerList.ListView.ToggleShowHistory | src/components/CustomerList.jsx:82-87 | only the history map changes, by Toggled |
| CustomerList.ListView.Filtered | src/components/CustomerList.jsx:94-117 | the shown customers are those of the list that pass the current filter, each as many times as in the list |
| Register.Validate | src/components/Register.jsx:20-30 | valid exactly when the username has at least 3 and the password at least 6 UTF-16 code units; a short username gives its message, else a short password gives its message |
| Register.AstralUsernameAccepted | src/components/Register.jsx:21 | an emoji and a letter make a long-enough username, the emoji counting twice |
| Register.OneCharacterUsernameRefused | src/components/Register.jsx:21 | a username of one character is always refused |
| Register.UsernameReportedFirst | src/components/Register.jsx:21-28 | with both fields too short the username message is reported, not the password one |
| Register.WithField | src/components/Register.jsx:12-14 | only the named field changes |
| Register.RejectionMessage | src/components/Register.jsx:47 | the server's non-empty message, else the fallback; never empty |
| Register.RegisterForm.constructor | src/components/Register.jsx:6-9 | empty credentials, no messages, not loading |
| Register.RegisterForm.HandleChange | src/components/Register.jsx:12-18 | only the named field changes, and both messages are cleared |
| Register.RegisterForm.HandleSubmit | src/components/Register.jsx:32-53 | an invalid form shows the validation message and posts nothing; a valid one is posted, success shows its message and schedules the redirect, failure shows RejectionMessage; loading ends false |

## Left out

- The asynchronous `Image.onload` promises are modelled as completed calls. An image that never loads leaves its promise unresolved; this is modelled only for the camera, where an absent screenshot (`None`) changes nothing. A second submit while the first is in flight is not modelled.
- The browser's encoder, image decoder, webcam, signature pad and `JSON.stringify` length are uninterpreted parameters, each taken to be deterministic. So is the checksum of `cpfValidator.isValid`, whose source is not part of this model. The screenshot's own JPEG quality of 0.8 is inside the screenshot parameter.
- Floating-point quality values: qualities are exact hundredths.
- CustomerUpdate.ResizedCanvas: the scaled sides are exact reals before the canvas keeps their integer part, so a double rounding just below a whole number can make the browser's canvas one pixel smaller than the model's. For a 97x194 source, `(100 / 194) * 97` is 49.99999999999999 in doubles, giving a 49x100 canvas where the model gives 50x100.
- `formatDate`, `new Date` parsing, `toLocaleDateString` and the time zone of `setHours(23, 59, 59, 999)`. Dates are integer timestamps, None when absent or unparsable, and the end-of-day adjustment is a parameter. The date inputs are assumed to yield either "" or a valid date.
- Unicode case folding: `toLowerCase` is modelled on ASCII letters only.
- Fields the server sends beyond those the pages use (`_id` aside, spread in by `...data`), and the list's other record fields and their rendering.
- `alert`, `navigate`, `setTimeout` (the success message cleared after 3 s, the redirect after 2 s), `console.log`, the scroll-to-top button, the loading skeleton and `handleLogout`. Navigation and the scheduled redirect are boolean flags.
- Login, the authentication hook, the protected route, the router table and the axios set-up in `src/main.jsx` are not part of this model.
- CustomerManagement.Form.AddCustomer: on a 201 the form becomes the corrected empty record (`AfterCreated`), not the submitted record without its signature that the code as written leaves (`AfterCreatedAsWritten`, see "## Findings").
- Lengths of encoded images and of payloads are compared as numbers of characters; data URLs are ASCII, where that is JavaScript's length too, and the payload's length is a parameter.
- CameraCapture.Camera.Capture: requires the camera to be on, because the webcam reference it reads exists only then.
- CameraCapture.Camera.SaveImage: a missing `onCapture` prop is a boolean parameter.

## Findings

| source | as written | input that shows it | evidently intended | confidence | as-written member | corrected member |
|---|---|---|---|---|---|---|
| src/components/CustomerManagement.jsx:183-197 | after a 201 the form is reset to the empty record, then `handleClearSignature` sets `{ ...newCustomer, signature: "" }` from the `newCustomer` captured before the submit, and that later update wins | any created customer with a non-empty name, e.g. "Ana" (`CustomerManagement.CreatedResetIsLost`): the form keeps "Ana" instead of being emptied | the form is emptied after a customer is created | not executed | CustomerManagement.AfterCreatedAsWritten | CustomerManagement.AfterCreated |
