# Boletim de Campo — a Dafny model

The application keeps scaffold field reports ("boletins de campo") for the ENGEVAL
contractor. Users register and sign in. The browser's `localStorage` holds the accounts
(`db_users`), the reports (`db_boletins`) and the signed-in session (`user`). A signed-in
user lists, searches, creates, edits and deletes their reports. A report can be printed in
three ways:

- by writing its fields over a fixed PDF template, at fixed page coordinates;
- as a jsPDF page with a header, tables and a checkbox grid;
- as a simple jsPDF text listing.

This project models that core in Dafny:

| file | models |
|---|---|
| `storage.dfy` | the key-value medium, as a class over a `map`. A `full` flag makes every write throw, like an exhausted quota. |
| `local_database.dfy` | the repository `LocalDatabaseService`: the list operations as functions, and the service as a class whose methods update the store |
| `auth_context.dfy` | the session provider `AuthProvider`: user, loading flag, init, login, register, logout and password reset |
| `app.dfy` | the shell `AppContent`: which screen shows, and how a submitted form becomes a stored report. Also the form's defaults, its required fields and the list's PDF action. |
| `boletim_list.dfy` | the report list: the case-insensitive search, the load, the delete and the text under the table |
| `text.dfy`, `seqs.dfy` | string `split`, `join`, `padStart`, `toLowerCase`, `includes` and `String(n)`; `filter`; the stable descending `sort` |
| `text_wrap.dfy` | the word-wrap loops of the template renderer, for the description and for the observations |
| `template_renderer.dfy` | the template renderer: the list of `drawText` calls for a report, the file name and the failure path |
| `pdf_generator.dfy` | the jsPDF renderer: which value or fallback each field shows, the checkbox grid loop and the file name |
| `simple_pdf_generator.dfy` | the simple renderer: which lines it writes, and the page-break loop of the observations |
| `types.dfy`, `wrappers.dfy` | the report and account records, the sample data, the complete example report, `Option` and `Result` |

Calendar reading and locale rendering of dates, `new Date()`, fresh identifiers, the
template's page height and the runtime's `splitTextToSize` are parameters of the
operations that use them.

## Model

| member | source | states |
|---|---|---|
| Storage.KeyValueStore.GetItem | src/services/localDatabase.ts:91-94 | reads the value under a key, or nothing when the key is absent |
| Storage.KeyValueStore.SetItem | src/services/localDatabase.ts:105-111 | a write replaces the key's value, or throws and changes nothing when the medium is full |
| Storage.KeyValueStore.RemoveItem | src/contexts/AuthContext.tsx:110 | removing drops exactly that key |
| LocalDatabase.LocalDatabaseService.Init | src/services/localDatabase.ts:6-22 | seeds the store only on a first start with no accounts; the flag is set only when the start completes; a refused seed write makes `init` fail |
| LocalDatabase.AfterInitIdempotent | src/services/localDatabase.ts:6-22 | after a first successful start there is an account, and a second seeding pass changes nothing |
| LocalDatabase.LocalDatabaseService.InsertSampleData | src/services/localDatabase.ts:24-89 | writes the sample account, then the sample report; fails when the store refuses writes |
| LocalDatabase.SeededUsers | src/services/localDatabase.ts:24-36 | the seeded store's accounts are the sample account alone |
| LocalDatabase.LocalDatabaseService.GetUsers | src/services/localDatabase.ts:91-94 | the stored accounts; a missing key reads as no accounts |
| LocalDatabase.LocalDatabaseService.GetBoletins | src/services/localDatabase.ts:96-103 | the stored reports; a missing key reads as no reports |
| Seqs.FindFirst | src/services/localDatabase.ts:187 | the index of the first element with the key, and none exactly when no element has it; it serves both the lookup of an account by email (lines 118 and 139) and of a report by id |
| LocalDatabase.InsertUserOutcome | src/services/localDatabase.ts:114-135 | a taken email is refused; otherwise exactly one account is appended and the others keep their order |
| LocalDatabase.InsertUserKeepsEmailsUnique | src/services/localDatabase.ts:118-121 | account creation never produces two accounts with one email |
| LocalDatabase.LocalDatabaseService.CreateUser | src/services/localDatabase.ts:114-135 | false when the email is taken or the write throws; otherwise the account is stored |
| LocalDatabase.LocalDatabaseService.GetUserByEmail | src/services/localDatabase.ts:137-150 | the first account with the email, null exactly when there is none |
| LocalDatabase.ValidateExactly | src/services/localDatabase.ts:152-162 | with unique emails, validation succeeds exactly for a stored account whose email and password both match, and returns it without the password |
| LocalDatabase.InsertThenValidate | src/services/localDatabase.ts:114-162 | a freshly created account validates with its password and with no other |
| LocalDatabase.LocalDatabaseService.ValidateUser | src/services/localDatabase.ts:152-162 | the returned account carries the requested email |
| LocalDatabase.LocalDatabaseService.CreateBoletim | src/services/localDatabase.ts:165-175 | appends the report with no id check; false only when the write throws |
| LocalDatabase.ListByOwnerFacts | src/services/localDatabase.ts:177-182 | the owner's reports, exactly, as a permutation of the filter; newest first; reports with equal timestamps keep the stored order |
| LocalDatabase.LocalDatabaseService.GetBoletinsByUserId | src/services/localDatabase.ts:177-182 | returns exactly the owner's reports, newest first |
| Sorting.SortDescFacts | src/services/localDatabase.ts:179-181 | the sort is a permutation and orders by decreasing key |
| Sorting.SortDescStable | src/services/localDatabase.ts:179-181 | the sort is stable: elements with equal keys keep their relative order |
| LocalDatabase.ReplaceByIdOutcome | src/services/localDatabase.ts:184-202 | a missing id is refused; otherwise only the first report with that id changes, to the new record stamped with the new `updatedAt` |
| LocalDatabase.LocalDatabaseService.UpdateBoletim | src/services/localDatabase.ts:184-202 | false with nothing written when the id is missing or the write throws; otherwise the replacement is stored |
| LocalDatabase.RemoveIdFacts | src/services/localDatabase.ts:204-214 | exactly the reports with other ids remain, in order; deleting twice is deleting once; deleting a missing id changes nothing |
| LocalDatabase.LocalDatabaseService.DeleteBoletim | src/services/localDatabase.ts:204-214 | writes the reports without that id; true even when nothing matched; false only when the write throws |
| LocalDatabase.CreateListDelete | src/services/localDatabase.ts:165-214 | a created report is listed for its owner, and after its deletion no listed report has its id |
| AuthContext.AuthProvider.InitializeAuth | src/contexts/AuthContext.tsx:23-41 | starts the repository and restores a saved session only when the start succeeded; a failure is swallowed; loading always ends |
| AuthContext.AuthProvider.Login | src/contexts/AuthContext.tsx:43-63 | with valid credentials the password-free account becomes the user and is saved; the result is true exactly when the save succeeded |
| AuthContext.AuthProvider.Register | src/contexts/AuthContext.tsx:65-106 | refused when the email is taken; otherwise the account is stored and the new session user is set and saved |
| AuthContext.AuthProvider.Logout | src/contexts/AuthContext.tsx:108-111 | no user and no saved session afterwards; nothing else in the store changes |
| AuthContext.AuthProvider.ResetPassword | src/contexts/AuthContext.tsx:113-128 | true exactly when an account has that email |
| AuthContext.InitKeepsSession | src/contexts/AuthContext.tsx:23-31 | starting the repository leaves the saved session as it was |
| AuthContext.SessionRoundTrip | src/contexts/AuthContext.tsx:23-41 | a provider started on a store that holds the session written by a successful login or register restores exactly that account; on the store a logout leaves, it restores none |
| AuthContext.RegisterThenLogin | src/contexts/AuthContext.tsx:65-106 | logging in with the credentials just registered finds the new account |
| App.Overlay | src/App.tsx:26-30 | the merge `{...editing, ...form}` keeps every field the form has no input for |
| App.OverlayShowsForm | src/App.tsx:22-44 | a stored edit or a new report shows back exactly the submitted form |
| App.OverlayUnchangedForm | src/App.tsx:179-182 | submitting an edited report's form untouched leaves the report as it was |
| App.OverlayDeterminesReport | src/App.tsx:26-30 | a report is the merge of any report that agrees with it off the form with its own form values |
| App.NewReportFacts | src/components/BoletimForm.tsx:14-34 | the form's defaults are the blank report dated today, and cannot be submitted as they are, since the number is empty; a submittable form never falls back to the month and year for the number |
| App.ScreenFor | src/App.tsx:86-101 | without a user only the login or recovery screen shows; with one, the current view does |
| App.AppContent.SaveBoletim | src/App.tsx:22-52 | an edit stores the merge; a new report gets a fresh id, the user's id and the current time; the form closes either way; with no user a new report fails with an alert and nothing changes |
| App.AppContent.SubmitForm | src/components/BoletimForm.tsx:36-38 | the save runs only when number, date, client and requester are filled |
| App.AppContent.EditBoletim | src/App.tsx:54-57 | the form opens on the clicked report |
| App.AppContent.NewBoletim | src/App.tsx:59-62 | the form opens with no report |
| App.AppContent.BackToList | src/App.tsx:81-84 | the form closes without saving |
| App.AppContent.ShowList | src/App.tsx:117-118 | the "Lista" button shows the list and keeps the report being edited |
| App.AppContent.SetShowForgotPassword | src/App.tsx:87-99 | the recovery screen's link and its way back |
| App.ListPdfAction | src/App.tsx:73-79 | the list's PDF action renders the complete example report; a failure produces no document |
| App.ListPdfIgnoresClicked | src/App.tsx:166 | the clicked report never reaches the document |
| App.ListPdfFileName | src/App.tsx:73-79 | the example's file is named after its number "2023-001" |
| Types.ExemploNumber | src/utils/boletimExemploCompleto.ts:9 | the complete example report is numbered "2023-001" |
| BoletimList.SearchFacts | src/components/BoletimList.tsx:25-32 | the search shows exactly the loaded reports that match, in their loaded order; an empty term shows them all |
| BoletimList.SearchIgnoresCase | src/components/BoletimList.tsx:26-30 | a term and its lower-case form find the same reports |
| BoletimList.SearchNarrows | src/components/BoletimList.tsx:26-30 | typing more characters never brings a report back |
| BoletimList.StatusFor | src/components/BoletimList.tsx:94-112 | the empty state shows exactly when no report matches, and offers to create one only when there is no search term; otherwise the count line shows the count |
| BoletimList.BoletimListView.LoadBoletins | src/components/BoletimList.tsx:34-43 | with a user the list holds exactly that user's reports, newest first; without one nothing loads |
| BoletimList.BoletimListView.SetSearchTerm | src/components/BoletimList.tsx:25-32 | the filtered list follows the new term |
| BoletimList.BoletimListView.DeleteBoletim | src/components/BoletimList.tsx:45-55 | only a confirmed delete writes; the list then reloads; after a delete that was written, no listed report has that id |
| Text.JoinSplit | src/utils/pdfGeneratorTemplate.ts:123 | joining the pieces of a split with the separator gives the text back |
| Text.SplitJoin | src/utils/pdfGeneratorTemplate.ts:455 | splitting a join of separator-free pieces gives the pieces back |
| Text.Utf16LengthBounds | src/utils/pdfGeneratorTemplate.ts:128 | `.length` counts one or two code units per character, and exactly one per character for text inside the Basic Multilingual Plane |
| Text.Utf16LengthAppend | src/utils/pdfGeneratorTemplate.ts:128 | the code-unit length of a concatenation is the sum of the lengths |
| Text.Truncate | src/utils/pdfGeneratorTemplate.ts:119-121 | a text over the limit is cut to the limit, ending in "..."; a shorter one is kept |
| Text.NatToStringValue | src/utils/pdfGeneratorTemplate.ts:34 | `String(n)` is a digit string that reads back as `n` |
| Text.Pad2Value | src/utils/pdfGeneratorTemplate.ts:157-158 | `padStart(2, '0')` of a number below 100 is two digits that read back as the number |
| Text.PadStart | src/utils/pdfGeneratorTemplate.ts:157 | the padded text ends with the original and is filled on the left to the length |
| Text.Lower | src/components/BoletimList.tsx:27 | lower-casing keeps the length and maps each character |
| Text.ContainsAt | src/components/BoletimList.tsx:27 | `includes` holds exactly when the needle occurs at some position |
| TextWrap.WrapWords | src/utils/pdfGeneratorTemplate.ts:127-135 | the word loop and the final push produce the wrap function's lines |
| TextWrap.WrapDescription | src/utils/pdfGeneratorTemplate.ts:115-135 | truncation, split and wrap of the description produce its lines |
| TextWrap.WrapObservations | src/utils/pdfGeneratorTemplate.ts:447-476 | the nested segment and word loops produce the observation lines |
| TextWrap.SurrogatePairWraps | src/utils/pdfGeneratorTemplate.ts:127-135 | after 78 code units, an emoji outside the Basic Multilingual Plane counts 2 and goes onto a new description line |
| TextWrap.WrapJoin | src/utils/pdfGeneratorTemplate.ts:127-135 | wrapping loses and reorders no word: the lines joined with spaces are the words joined with spaces |
| TextWrap.WrapWithin | src/utils/pdfGeneratorTemplate.ts:127-135 | every wrapped line fits the limit in UTF-16 code units, or is a single over-long word |
| TextWrap.DescriptionFacts | src/utils/pdfGeneratorTemplate.ts:115-135 | description lines fit 80 UTF-16 code units or are single words; they join back to the truncated text |
| TextWrap.ObservationFacts | src/utils/pdfGeneratorTemplate.ts:447-476 | observation lines fit 86 UTF-16 code units or are single words; segments that fit 85 units are drawn as they are |
| TextWrap.WrapTwoWords | src/utils/pdfGeneratorTemplate.ts:128-133 | two words share a line exactly when the pair passes the fit test, counted in UTF-16 code units |
| TextWrap.ObservationLineOf86 | src/utils/pdfGeneratorTemplate.ts:459-474 | an 86-unit line of two words of 42 and 43 UTF-16 code units is kept whole, yet its words would be split by the word loop |
| TemplateRenderer.Generate | src/utils/pdfGeneratorTemplate.ts:5-539 | fails with the fixed message when the template cannot be loaded, and succeeds otherwise |
| TemplateRenderer.GenerateSucceeds | src/utils/pdfGeneratorTemplate.ts:5-533 | with a template, the document is the page's draws and the report's file name |
| TemplateRenderer.NumberFallback | src/utils/pdfGeneratorTemplate.ts:33-41 | a set number is drawn as it is; otherwise six digits, the month then the year |
| TemplateRenderer.NamedAfterNumber | src/utils/pdfGeneratorTemplate.ts:523 | a numbered report's file is named after its number and the UTC date |
| TemplateRenderer.FileNameDate | src/utils/pdfGeneratorTemplate.ts:523 | the file name ends in the date part of the ISO timestamp |
| TemplateRenderer.NumberAndFileName | src/utils/pdfGeneratorTemplate.ts:33-523 | the first draw is the number text, and the file name carries that same text |
| TemplateRenderer.QuebrarHoraFacts | src/utils/pdfGeneratorTemplate.ts:168-172 | empty gives two empty parts; `HH:MM` gives `HH` and `MM`; no colon gives no minutes |
| TemplateRenderer.QuebrarDataFacts | src/utils/pdfGeneratorTemplate.ts:152-164 | day and month are two digits, and day, month and year read back as the date's own |
| TemplateRenderer.MarksExactly | src/utils/pdfGeneratorTemplate.ts:94-442 | an `X` is drawn for a flag exactly when the report sets it, once per set flag |
| TemplateRenderer.MarksDistinct | src/utils/pdfGeneratorTemplate.ts:287-302 | no two flags are marked at the same (x, y) place on the form |
| TemplateRenderer.EveryFlagListed | src/utils/pdfGeneratorTemplate.ts:287-302 | every flag of the form is among those the renderer checks |
| TemplateRenderer.BoldDrawsAreMarks | src/utils/pdfGeneratorTemplate.ts:27-510 | apart from the number, the bold draws are exactly the marks of the set flags |
| TemplateRenderer.TextsRegular | src/utils/pdfGeneratorTemplate.ts:47-510 | every field value is drawn in the regular font |
| TemplateRenderer.RenderWithinPage | src/utils/pdfGeneratorTemplate.ts:32-510 | every draw lies between 107 and 767 points below the page top |
| TemplateRenderer.TableBetween | src/utils/pdfGeneratorTemplate.ts:175-258 | the table's draws lie on its two rows |
| TemplateRenderer.WrappedBetween | src/utils/pdfGeneratorTemplate.ts:137-485 | at most three description lines and four observation lines, stacked in their boxes |
| TemplateRenderer.BlankReportDraws | src/utils/pdfGeneratorTemplate.ts:32-510 | an empty report draws only the number fallback and five empty header texts |
| PdfGenerator.Checkbox | src/utils/pdfGenerator.ts:32-37 | the box is always drawn, and the "X" exactly when checked |
| PdfGenerator.Cell | src/utils/pdfGenerator.ts:221-261 | a cell shows its value, and the placeholder is written over it when the value is empty |
| PdfGenerator.HeaderTexts | src/utils/pdfGenerator.ts:122-149 | five non-empty header texts: each field when set, else its fallback |
| PdfGenerator.BlankHeaderIsSample | src/utils/pdfGenerator.ts:122-149 | an empty report shows the same header as the sample report |
| PdfGenerator.StillAssembledAlwaysChecked | src/utils/pdfGenerator.ts:154 | the "still assembled" box is checked whatever the report says |
| PdfGenerator.DrawGrid | src/utils/pdfGenerator.ts:333-343 | the nested loop draws the captioned slots, four to a row, and advances y by one row per four slots |
| PdfGenerator.AllCaptioned | src/utils/pdfGenerator.ts:333-343 | with every slot captioned, slot k sits at row k / 4, column k % 4 |
| PdfGenerator.GridLayout | src/utils/pdfGenerator.ts:318-343 | the report's grid has eleven captioned slots in three rows; the blank slot leaves a gap and "BARRACA" closes the last row |
| PdfGenerator.IgnoredFields | src/utils/pdfGenerator.ts:103-343 | the page depends on no field outside the header, status, description, table and type grid |
| PdfGenerator.GenerateBoletimPdf | src/utils/pdfGenerator.ts:103-465 | the page's items and file name are those of the report |
| PdfGenerator.ReplaceChar | src/utils/pdfGenerator.ts:464 | `replace(/\//g, '-')` replaces every slash and nothing else |
| PdfGenerator.FileNameFacts | src/utils/pdfGenerator.ts:464 | an unnumbered report's file is named "SN", not the month-year fallback of the header; only the number can put a slash in the name |
| SimplePdfGenerator.GeneralLines | src/utils/simplePdfGenerator.ts:61-84 | the seven general lines are on page 1; an empty number, client, requester or equipment shows "N/A", a filled one its value |
| SimplePdfGenerator.BuildTipos | src/utils/simplePdfGenerator.ts:112-118 | the pushes build the list of ticked type names, in fixed order |
| SimplePdfGenerator.TipoNamesFacts | src/utils/simplePdfGenerator.ts:112-123 | at most six names, and none exactly when no type is ticked |
| SimplePdfGenerator.TipoNamesKinds | src/utils/simplePdfGenerator.ts:113-114 | "Convencional" and "Especial" are listed exactly when ticked |
| SimplePdfGenerator.TipoNamesSupports | src/utils/simplePdfGenerator.ts:115-116 | "Escoramento" and "Escada" are listed exactly when ticked |
| SimplePdfGenerator.TipoNamesGuards | src/utils/simplePdfGenerator.ts:117-118 | "Torre Acima 5M" and "Guarda Corpo" are listed exactly when ticked |
| SimplePdfGenerator.BuildDimensoes | src/utils/simplePdfGenerator.ts:130-134 | the pushes build the list of filled-in dimensions |
| SimplePdfGenerator.DimensionFacts | src/utils/simplePdfGenerator.ts:126-138 | the section opens on length, width or height; the quantity alone does not open it |
| SimplePdfGenerator.PlaceObservationLines | src/utils/simplePdfGenerator.ts:149-156 | the observation loop places the lines as the page-break function does |
| SimplePdfGenerator.PlaceLinesFacts | src/utils/simplePdfGenerator.ts:149-156 | lines keep their text and order; each lies between 15 and 250; pages never go back |
| SimplePdfGenerator.PlaceLinesFit | src/utils/simplePdfGenerator.ts:149-156 | lines that fit above the break stay on the page, 6 apart |
| SimplePdfGenerator.PlaceLinesAppend | src/utils/simplePdfGenerator.ts:149-156 | placing two batches of lines in turn is placing them together |
| SimplePdfGenerator.PeriodLines | src/utils/simplePdfGenerator.ts:91-106 | a period block shows exactly when its date is set |
| SimplePdfGenerator.TiposLines | src/utils/simplePdfGenerator.ts:109-123 | the type line follows the title exactly when a type is ticked |
| SimplePdfGenerator.DimensionLines | src/utils/simplePdfGenerator.ts:126-138 | the dimensions section shows exactly when length, width or height is set |
| SimplePdfGenerator.ObservationLines | src/utils/simplePdfGenerator.ts:141-158 | the observations section shows exactly when there are observations |
| SimplePdfGenerator.SignatoryLines | src/utils/simplePdfGenerator.ts:161-175 | the signatories section shows exactly when either is named, on the current page |
| SimplePdfGenerator.WritePeriod | src/utils/simplePdfGenerator.ts:91-106 | writes the period block its function describes |
| SimplePdfGenerator.WriteTipos | src/utils/simplePdfGenerator.ts:109-123 | writes the types section its function describes |
| SimplePdfGenerator.WriteDimensions | src/utils/simplePdfGenerator.ts:126-138 | writes the dimensions section its function describes |
| SimplePdfGenerator.WriteObservations | src/utils/simplePdfGenerator.ts:141-158 | writes the observations section its function describes |
| SimplePdfGenerator.WriteSignatories | src/utils/simplePdfGenerator.ts:161-175 | writes the signatories section its function describes |
| SimplePdfGenerator.GenerateBoletimPdf | src/utils/simplePdfGenerator.ts:4-186 | the document's lines and its file name are those of the report |
| SimplePdfGenerator.SignatoriesBelowPage | src/utils/simplePdfGenerator.ts:149-175 | only the observations break pages: after observations of 54 lines the ENGEVAL signatory is written at y 300 of a 297 mm page |

## Left out

- JSON serialisation: the store holds parsed values, so a corrupt entry that `JSON.parse` would reject is not modelled.
- Date parsing and locale rendering: `new Date(s)` and `toLocaleDateString('pt-BR')` are parameters, so an unparseable date (`Invalid Date`) is whatever the parameter returns.
- Time: `createdAt` and `updatedAt` are integers (milliseconds), and clock readings are parameters. `register` reads the clock twice, for the stored account (`storedAt`) and for the session (`sessionAt`). The template renderer reads `new Date()` twice too: `now` gives the month and year of the number and `isoNow` the date in the file name.
- LocalDatabase.Seeded: one `now` stands for the three clock readings of `insertSampleData` (src/services/localDatabase.ts:31, 83-84), so the model's sample account and sample report carry the same instant, where the source's may differ by a millisecond.
- App.NewFromForm: one `now` stands for the two readings of a new report's `createdAt` and `updatedAt` (src/App.tsx:38-39), so the model stamps both with the same instant, where the source's may differ by a millisecond.
- `crypto.randomUUID()` and `uuidv4()` are parameters, so the model cannot show that identifiers are unique.
- Asynchrony: each `async` operation runs to completion before the next begins. Interleavings of React state updates are not modelled.
- The store is either full or not: it refuses every write or none.
- Fetching the template, `PDFDocument.load`, `save`, the `Blob` and the download link are left out. The template is a page height, or nothing when loading fails.
- Fonts, colours, rectangles and lines of the jsPDF renderers are left out, and so are the full renderer's static titles. The model keeps the texts each field contributes, the checkbox marks and the full renderer's fixed underscores and `___:___` placeholders (`PdfGenerator.FixedItems`). The simple renderer's section titles and footer are kept too, because they move the y position that decides the page break.
- The x coordinates and heights of the jsPDF page are left out. The simple renderer keeps its y positions because they decide the page break.
- `splitTextToSize` is a parameter of the simple renderer.
- The simple renderer writes its footer once, after the last section, on the page that is then current. Only that last page has a footer, and it always reads "Página 1". The model keeps both.
- `src/utils/pdfGeneratorHTML.ts` and `src/services/database.ts` are not part of this model. The application imports the repository from `localDatabase.ts`.
- The login and password-recovery screens, the form's layout and its validation messages are left out. Only which fields the form requires, and its defaults, are modelled.
- `handleGeneratePDF` is defined in `App.tsx` but never passed to a component. The list's button calls `handleTestePDF`, which the model covers.
- Text.Lower: lower-cases ASCII letters only. `toLowerCase` also maps accented and other Unicode capitals.
- TemplateRenderer.QuebrarDataFacts: only for days and months below 100, as any calendar date has them.
- Undefined fields of a report are "" or false. JavaScript treats `undefined` as falsy, so every branch takes the same path.
- AuthContext.AuthProvider.Login: the code sets the user before it writes the session. A refused write therefore leaves the user signed in, even though `login` returns false. The model follows the code.
- TemplateRenderer.Generate: fails only when the template cannot be loaded. The source's `catch` also turns a throwing `drawText`, `embedFont` or `save` into the same error, for instance a character that the standard Helvetica encoding (WinAnsi) cannot encode. Font encoding is not modelled, so the model does not capture that failure.
- Text.Truncate: lengths count Unicode scalar values. JavaScript's `.length` counts UTF-16 code units, so a character outside the Basic Multilingual Plane counts as 2 in the source.
- TextWrap.WrapDescription: the cut to 240 goes through Text.Truncate and so counts Unicode scalar values; the wrap's fit test counts UTF-16 code units, as the source does. The same holds for TextWrap.DescriptionFacts.
- TextWrap.WrapObservations: the cut to 340 goes through Text.Truncate and so counts Unicode scalar values; the 85-unit segment test and the fit test count UTF-16 code units, as the source does. The same holds for TextWrap.ObservationFacts.
- Text.PadStart: lengths count Unicode scalar values, not UTF-16 code units as `padStart` does, as for Text.Truncate.
