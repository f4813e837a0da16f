# stagebook-web: staged creation flows, modelled in Dafny

stagebook-web is a Next.js front end for a theatre-production network. Two pages
hold its application logic, and this project models both:

- **Project wizard** (`src/app/proyectos/nuevo/page.tsx`). A four-step wizard
  drafts a project: script, concept, cast and production. It locks the script
  step until a file is attached or skipping is chosen. It checks the script's
  type and size, and drafts characters in a modal that can edit or append. It
  then commits the draft through `createFullProject`.
- **Project commit service** (`src/app/proyectos/projectService.ts`). It makes
  the ordered remote writes for a project: the project row, the script upload
  and its link, then one batched character insert. A failed project insert,
  an oversized script, a failed script upload or a failed character insert
  stops the commit, and nothing already written is undone. The reply to the `script_url` update is
  never read, so a failed link still gives a successful commit.
- **Company founding** (`src/app/companias/nueva/page.tsx`). A name is
  normalised and checked. Members are searched and staged in a local list with
  distinct e-mails. Submitting resolves the session, inserts the company,
  uploads and links the logo, inserts the founder's Director membership, and
  inserts one invitation per staged member. Every failure the page checks is
  mapped to an error dialog. Two outcomes are never checked: a failed logo
  upload is swallowed, and the reply to the `image_url` update is never read.
  Neither one shows a dialog or stops the founding.

How it is modelled:

- The hosted backend is an oracle, `Remote.Oracle`. Its answer to every call may
  depend on all the calls issued before it.
- Every operation returns or updates a log of the calls it issued. Order, count
  and arguments of remote writes are therefore stated exactly.
- Each page is a class whose fields are the page's state variables. Each event
  handler is a method with a `modifies` frame.
- Each remote flow is a pure specification function. The method that runs the
  flow is proved equal to it.

Files:

- `common.dfy`: Option and Result, positional removal, the `.limit(n)` cut, and the search and routing constants both pages share.
- `text.dfy`: the JavaScript string operations the pages use.
- `remote.dfy`: the backend calls, their answers and the oracle.
- `project_service.dfy`: the commit service.
- `project_wizard.dfy`: the wizard page.
- `company_founding.dfy`: the founding page.

A `23505` company-insert failure gives the duplicate dialog only when no logo
is attached. With a logo, the source reads `company.id` of the missing row first,
and that TypeError reaches the generic dialog (`DuplicateOnlyFromCompanyInsert`,
`ImageHidesInsertError`).

Clocks and the page origin are parameters: `Date.now()`, `new Date().toISOString()`
and `window.location.origin`.

## Model

| member | source | states |
|---|---|---|
| Common.RemoveAt | src/app/proyectos/nuevo/page.tsx:127-132 | removing position `index` gives a list one shorter: elements before it are kept and later ones shift down by one; an index outside the list removes nothing |
| Common.RemoveAtIsFilter | src/app/proyectos/nuevo/page.tsx:130 | the removal equals the element-by-element `filter((_, i) => i !== index)` reference definition, for every index |
| Common.Limit | src/app/companias/nueva/page.tsx:48 | `.limit(5)` keeps a prefix of the matches of at most 5 rows: all of them when there are 5 or fewer, exactly 5 otherwise |
| Text.Trim | src/app/companias/nueva/page.tsx:106 | `trim()`; its characterisation is `TrimIsSlice` |
| Text.TrimIsSlice | src/app/companias/nueva/page.tsx:106 | `trim()` returns a slice of the input that is surrounded only by white space and neither starts nor ends with white space |
| Text.ToUpper | src/app/proyectos/projectService.ts:26 | `toUpperCase()` keeps the length, upper-cases each character in place and leaves no lower-case letter |
| Text.ToUpperIdempotent | src/app/proyectos/nuevo/page.tsx:425 | upper-casing an already upper-cased name changes nothing |
| Text.UpperOfUpper | src/app/companias/nueva/page.tsx:106 | upper-casing text that has no lower-case letter leaves it unchanged |
| Text.AfterLastDot | src/app/companias/nueva/page.tsx:83 | `split('.').pop()`; its characterisation is `AfterLastDotShape` and `AfterLastDotWithoutDot` |
| Text.AfterLastDotShape | src/app/companias/nueva/page.tsx:83 | `split('.').pop()` is a suffix of the name containing no '.', and a '.' stands just before it unless it is the whole name |
| Text.AfterLastDotWithoutDot | src/app/companias/nueva/page.tsx:83 | a file name without a '.' is its own extension |
| Text.Decimal | src/app/proyectos/projectService.ts:9 | the timestamp's decimal text is non-empty, digits only, has no leading zero and reads back as the number |
| ProjectService.ScriptPath | src/app/proyectos/projectService.ts:9 | the script path is `<projectId>/script_<timestamp digits>.pdf`, whatever the file's type |
| ProjectService.ScriptPathsDiffer | src/app/proyectos/projectService.ts:9 | uploads at different instants never share a path, so no script is overwritten |
| ProjectService.ScriptUpload | src/app/proyectos/projectService.ts:5-18 | a file over 10 MiB throws the size message before any call; otherwise exactly one upload (no upsert) is issued; a storage error is thrown with its message, else the public URL is returned |
| ProjectService.CharacterRowOf | src/app/proyectos/projectService.ts:44-51 | each row carries the project id and the character's name, description and references; an empty `perfilUrl` gives a null assigned profile |
| ProjectService.CharacterRows | src/app/proyectos/projectService.ts:44-51 | one row per draft character, in draft order |
| ProjectService.ProjectInsert | src/app/proyectos/projectService.ts:23-31 | the `projects` insert with the upper-cased title, description, founder, date and colour; `ProjectCommit` and `CharactersInsertedOnce` state where it is issued |
| ProjectService.ScriptPhase | src/app/proyectos/projectService.ts:37-40 | adds at most two calls and never a character insert; no file means no call; success yields a URL exactly when a file was attached |
| ProjectService.CharacterPhase | src/app/proyectos/projectService.ts:43-58 | adds one call exactly when there are characters; success returns the inserted project |
| ProjectService.ScriptLinkedAfterUpload | src/app/proyectos/projectService.ts:37-40 | an attached script within the size limit that uploads is followed at once by the `script_url` update carrying its public URL, and that URL is the step's result |
| ProjectService.CharacterBatchOutcome | src/app/proyectos/projectService.ts:43-58 | with characters, the batch is the step's one call; a failed batch is thrown with its message, a successful one yields the project |
| ProjectService.ProjectCommit | src/app/proyectos/projectService.ts:21-34 | the first call is always the project insert, with the upper-cased title |
| ProjectService.ProjectInsertFailureAborts | src/app/proyectos/projectService.ts:34 | a failed project insert is thrown and nothing else is issued |
| ProjectService.NoScriptNoUpload | src/app/proyectos/projectService.ts:37 | without a script file, no upload and no `script_url` update is issued |
| ProjectService.OversizedScriptRefused | src/app/proyectos/projectService.ts:6-8 | an oversized script is refused after the project insert, with no storage call and no character insert |
| ProjectService.ScriptUploadFailureAborts | src/app/proyectos/projectService.ts:10-14 | a failed script upload is the last call: no link update and no character insert follow |
| ProjectService.CharactersInsertedOnce | src/app/proyectos/projectService.ts:43-60 | characters go in one batch, only as the last call, with the draft's rows; the batch is issued exactly when the project was created, the script step succeeded and the draft has characters; success returns the inserted project |
| ProjectService.CharacterFailureThrown | src/app/proyectos/projectService.ts:43-61 | over the whole commit, a character batch that is the last call and fails is thrown with its message; one that succeeds returns the inserted project |
| ProjectService.UploadProjectScript | src/app/proyectos/projectService.ts:5-18 | the method issues the calls of, and returns the result of, `ScriptUpload` |
| ProjectService.CreateFullProject | src/app/proyectos/projectService.ts:21-61 | the method issues the calls of, and returns the result of, `ProjectCommit` |
| ProjectWizard.IsLocked | src/app/proyectos/nuevo/page.tsx:61 | step 0 with no file and no skip; `HandleNext`, `PrimaryClick` and `LeavingScriptNeedsFileOrSkip` state its effect |
| ProjectWizard.WalkStaysInRange | src/app/proyectos/nuevo/page.tsx:63-64 | after any sequence of next and back clicks the step stays within 0..3 |
| ProjectWizard.LeavingScriptNeedsFileOrSkip | src/app/proyectos/nuevo/page.tsx:61-63 | step 0 is only ever left by a next click made while a file was attached or skipping was chosen |
| ProjectWizard.CheckScript | src/app/proyectos/nuevo/page.tsx:206-224 | a file is accepted exactly when it is PDF or Word and at most 10 MiB; type is checked before size, each with its own message |
| ProjectWizard.Confirmed | src/app/proyectos/nuevo/page.tsx:98-112 | with a remembered position inside the list, only that entry is replaced and the length is kept; otherwise the character is appended |
| ProjectWizard.Launch | src/app/proyectos/nuevo/page.tsx:138-142 | the session lookup comes first; no session throws "Sesión expirada" and nothing else is issued |
| ProjectWizard.NewProjectPage.constructor | src/app/proyectos/nuevo/page.tsx:23-44 | the initial state: step 0, no file, no skip, blank character, colour `#dc2626`, no banner |
| ProjectWizard.NewProjectPage.HandleNext | src/app/proyectos/nuevo/page.tsx:63 | a locked step does not move; otherwise the step advances by one, at most to 3 |
| ProjectWizard.NewProjectPage.HandleBack | src/app/proyectos/nuevo/page.tsx:64 | one step back, never below 0 |
| ProjectWizard.NewProjectPage.PrimaryClick | src/app/proyectos/nuevo/page.tsx:386-394 | the button does nothing while locked or busy; on step 3 it opens the confirmation prompt; otherwise it advances one step |
| ProjectWizard.NewProjectPage.PickScript | src/app/proyectos/nuevo/page.tsx:206-224 | a rejected file only raises the error banner with its message; an accepted one becomes the draft's file, and skipping is switched off (lines 47-51) |
| ProjectWizard.NewProjectPage.RemoveScript | src/app/proyectos/nuevo/page.tsx:234 | the file is detached and nothing else in the draft changes |
| ProjectWizard.NewProjectPage.SetSkipScript | src/app/proyectos/nuevo/page.tsx:244-249 | the checkbox takes effect only while no file is attached; with a file, skipping stays off (invariant `Valid`) |
| ProjectWizard.NewProjectPage.BuscarArtistas | src/app/proyectos/nuevo/page.tsx:66-89 | a query under 3 characters clears the results without a lookup; otherwise one lookup of usernames matching `%query%` (`Remote.SearchPattern`), at most 5 results, and an error keeps the previous results; the busy flag is cleared afterwards |
| ProjectWizard.NewProjectPage.SelectArtist | src/app/proyectos/nuevo/page.tsx:467-474 | the picked profile's username, id and avatar go into the scratch character, and the result list closes |
| ProjectWizard.NewProjectPage.SetCharName | src/app/proyectos/nuevo/page.tsx:425 | the typed name is stored upper-cased |
| ProjectWizard.NewProjectPage.OpenCharModal | src/app/proyectos/nuevo/page.tsx:335 | "Añadir Personaje" only shows the modal; the remembered position is kept |
| ProjectWizard.NewProjectPage.HideCharModal | src/app/proyectos/nuevo/page.tsx:417 | the X button only hides the modal; the remembered position is kept |
| ProjectWizard.NewProjectPage.DismissStatus | src/app/proyectos/nuevo/page.tsx:598 | the banner's close button hides it; its text and kind are kept |
| ProjectWizard.NewProjectPage.PrepararEdicion | src/app/proyectos/nuevo/page.tsx:92-96 | remembers the position, loads that character and shows the modal |
| ProjectWizard.NewProjectPage.AgregarPersonaje | src/app/proyectos/nuevo/page.tsx:98-118 | an unnamed character changes nothing; otherwise the list becomes `Confirmed(...)`, and the scratch character, position and modal are reset |
| ProjectWizard.NewProjectPage.CerrarModal | src/app/proyectos/nuevo/page.tsx:121-125 | hides the modal and forgets the position and the scratch character |
| ProjectWizard.NewProjectPage.EliminarPersonaje | src/app/proyectos/nuevo/page.tsx:127-132 | removes that position; the remembered position is not adjusted |
| ProjectWizard.NewProjectPage.LanzarProyecto | src/app/proyectos/nuevo/page.tsx:134-167 | issues exactly the calls of `Launch`. Success shows the success banner, keeps the busy flag and goes to the dashboard. Failure shows the thrown message, or the fallback when it is empty, and clears the busy flag |
| ProjectWizard.StaleEditReplaces | src/app/proyectos/nuevo/page.tsx:92-118 | edit character 2, close with X, reopen with "Añadir", confirm: the list stays at 2 entries and entry 2 is overwritten |
| CompanyFounding.NormalizeName | src/app/companias/nueva/page.tsx:106 | `nombre.trim().toUpperCase()`; its characterisation is `NormalizeNameShape` and `NormalizeNameIdempotent` |
| CompanyFounding.NormalizeNameShape | src/app/companias/nueva/page.tsx:106 | the normalised name is the upper-cased slice left by trimming, with no white space at either end and no lower-case letter |
| CompanyFounding.NormalizeNameIdempotent | src/app/companias/nueva/page.tsx:106 | normalising twice is normalising once |
| CompanyFounding.HamletExample | src/app/companias/nueva/page.tsx:106-109 | "  hamlet  " becomes "HAMLET" and passes; "ab" is refused |
| CompanyFounding.BlankNameRefused | src/app/companias/nueva/page.tsx:109 | a name made only of white space normalises to "" and is refused |
| CompanyFounding.Staged | src/app/companias/nueva/page.tsx:53-72 | nothing is staged without a selection, without an e-mail, or for an e-mail already staged; otherwise the user's fields are staged with the chosen role |
| CompanyFounding.StagingKeepsEmailsDistinct | src/app/companias/nueva/page.tsx:57-74 | staging keeps the pending e-mails pairwise distinct |
| CompanyFounding.RemovalKeepsEmailsDistinct | src/app/companias/nueva/page.tsx:337 | removing an entry keeps them distinct |
| CompanyFounding.LogoPath | src/app/companias/nueva/page.tsx:83-84 | the logo's storage path; its characterisation is `LogoPathShape` |
| CompanyFounding.LogoPathShape | src/app/companias/nueva/page.tsx:83-84 | the logo path is `<companyId>/logo.` followed by a suffix of the file name with no '.', preceded there by a '.' unless it is the whole name |
| CompanyFounding.ImageUpload | src/app/companias/nueva/page.tsx:79-103 | exactly one upload, with upsert and the file's content type; it yields no URL exactly when the upload failed, else the public URL of the path |
| CompanyFounding.ImageSteps | src/app/companias/nueva/page.tsx:132-141 | the logo upload and, only after a successful one whose public URL is not empty (the `if (imageUrl)` test), the `image_url` update; stated by `ImageUpdateOnlyAfterUpload` |
| CompanyFounding.ImageUpdateOnlyAfterUpload | src/app/companias/nueva/page.tsx:132-141 | a failed logo upload is swallowed and no `image_url` update follows; a successful one is followed by the update with its URL when that URL is not empty, and by nothing when it is empty |
| CompanyFounding.ModalFor | src/app/companias/nueva/page.tsx:187-208 | the dialog chosen in the `catch` block; its characterisation is `ModalForShape` |
| CompanyFounding.ModalForShape | src/app/companias/nueva/page.tsx:187-208 | "Compañía duplicada" exactly for an encoded unique-violation code `23505`; otherwise "Error inesperado" with the message, or "Algo salió mal." when it is empty |
| CompanyFounding.Invitations | src/app/companias/nueva/page.tsx:167-183 | the invitation loop as a recursive run over the staged list; stated by `InvitationsInOrder` and `InvitesInOrderStep` |
| CompanyFounding.InvitationsInOrder | src/app/companias/nueva/page.tsx:167-183 | one invitation insert per staged entry in list order; every insert before the last succeeded; the first failure is thrown and ends the loop; one confirmation link per created invitation, carrying its token |
| CompanyFounding.InvitesInOrderStep | src/app/companias/nueva/page.tsx:167-183 | a created first invitation followed by a run over the rest is a run over the whole list |
| CompanyFounding.SendInvitations | src/app/companias/nueva/page.tsx:167-183 | the loop issues the calls of `Invitations` and yields its outcome and links |
| CompanyFounding.Staffed | src/app/companias/nueva/page.tsx:153-183 | the Director membership and then the invitations; stated by `StaffedShape` and `StaffedDirectorFirst` |
| CompanyFounding.Founded | src/app/companias/nueva/page.tsx:122-183 | the company insert, the logo step and then `Staffed`; stated by `FoundedStarts`, `FoundedEncoded` and `FoundedDirectorFirst` |
| CompanyFounding.Founding | src/app/companias/nueva/page.tsx:118-183 | the whole `try` block: `getUser`, then `Founded`; stated by `FoundingShape`, `DuplicateOnlyFromCompanyInsert`, `ImageHidesInsertError` and `DirectorBeforeInvitations` |
| CompanyFounding.StaffedShape | src/app/companias/nueva/page.tsx:153-183 | after the company exists, the next call is the Director membership; anything thrown from here is a raw error |
| CompanyFounding.FoundedStarts | src/app/companias/nueva/page.tsx:122-127 | the company insert, with the name and the founder's id, is the first call after the session |
| CompanyFounding.FoundedEncoded | src/app/companias/nueva/page.tsx:122-150 | an encoded error is thrown only when no image is attached; it is then the company insert's own error, and that insert is the last call |
| CompanyFounding.FoundingShape | src/app/companias/nueva/page.tsx:118-120 | the session lookup is always the first call |
| CompanyFounding.DuplicateOnlyFromCompanyInsert | src/app/companias/nueva/page.tsx:123-150 | the duplicate dialog arises only from a company insert failing with `23505` with no image attached; no further call follows it |
| CompanyFounding.ImageHidesInsertError | src/app/companias/nueva/page.tsx:129-133 | with an image attached, a failed company insert throws the null-id TypeError before any upload, and the dialog is the generic one carrying that message |
| CompanyFounding.StaffedDirectorFirst | src/app/companias/nueva/page.tsx:153-183 | in the staffing stage every invitation follows the successful Director membership for the same company |
| CompanyFounding.FoundedDirectorFirst | src/app/companias/nueva/page.tsx:122-183 | the same holds from the company insert on: the insert and the logo step issue no invitation |
| CompanyFounding.DirectorBeforeInvitations | src/app/companias/nueva/page.tsx:153-183 | in every founding, each invitation insert is preceded by a successful "Director" membership insert for the same company |
| CompanyFounding.NewCompanyPage.constructor | src/app/companias/nueva/page.tsx:16-37 | the initial state: empty name, not loading, no image, no selection, role Actor, empty pending list, no dialog |
| CompanyFounding.NewCompanyPage.SetNombre | src/app/companias/nueva/page.tsx:231 | the typed name is stored as typed |
| CompanyFounding.NewCompanyPage.PickImage | src/app/companias/nueva/page.tsx:241-245 | a picked file replaces the logo; no pick changes nothing |
| CompanyFounding.NewCompanyPage.BuscarUsuarios | src/app/companias/nueva/page.tsx:41-50 | a query under 3 characters clears the results without a lookup; otherwise one lookup of usernames matching `%query%` (`Remote.SearchPattern`), at most 5 results, and an error leaves none |
| CompanyFounding.NewCompanyPage.SelectUser | src/app/companias/nueva/page.tsx:279 | the clicked result becomes the selection |
| CompanyFounding.NewCompanyPage.SetRole | src/app/companias/nueva/page.tsx:298-306 | the chosen role is stored |
| CompanyFounding.NewCompanyPage.CloseErrorModal | src/app/companias/nueva/page.tsx:359 | the dialog's close button clears it |
| CompanyFounding.NewCompanyPage.AgregarAListaTemporal | src/app/companias/nueva/page.tsx:53-78 | a refused stage changes nothing; an accepted one appends exactly the staged entry and clears selection, search text and results; e-mails stay distinct (invariant `Valid`) |
| CompanyFounding.NewCompanyPage.QuitarInvitado | src/app/companias/nueva/page.tsx:337 | removes that position and keeps e-mails distinct |
| CompanyFounding.NewCompanyPage.FundarYReclutar | src/app/companias/nueva/page.tsx:105-211 | an invalid name shows "Nombre inválido", clears `loading` and issues no call. Otherwise it issues exactly the calls of `Founding`. Success goes to the dashboard; a failure shows `ModalFor` of the thrown error. `loading` stays set in both cases |
| CompanyFounding.NewCompanyPage.Commit | src/app/companias/nueva/page.tsx:107-208 | for an already normalised name: a name under 3 characters shows "Nombre inválido" and issues no call; otherwise `loading` is set, exactly the calls of `Founding` are issued, and success goes to the dashboard while a failure shows `ModalFor` of the thrown error |
| CompanyFounding.NewCompanyPage.SubmitClick | src/app/companias/nueva/page.tsx:345-347 | while `loading` the disabled button does nothing; otherwise the outcome is that of `fundarYReclutar`: an invalid name shows "Nombre inválido" with no call, a valid one issues the calls of `Founding` and then goes to the dashboard or shows `ModalFor` of the thrown error |
| CompanyFounding.SecondSubmitIgnored | src/app/companias/nueva/page.tsx:107-116 | after a valid name is submitted, a second click issues no call, whatever the outcome of the first |
| CompanyFounding.FoundCompany | src/app/companias/nueva/page.tsx:118-185 | the `try` block issues the calls of, and throws the error of, `Founding` |
| CompanyFounding.UploadCompanyImage | src/app/companias/nueva/page.tsx:79-103 | the method issues the call of, and returns the URL of, `ImageUpload` |

## Left out

- Rendering, styling, icons, the preview image, and the `StatusPopup` and `ErrorModal` components are not modelled. Only the state they display is kept.
- Timers are not modelled. The wizard moves to the dashboard 1.5 s after success; the model navigates at once. The 3 s auto-hide of the wizard's error banner is also left out.
- `console.log`, `console.error` and `alert` have no state effect and are left out.
  - The invitation links are kept as values.
  - The staging alerts show up only as "nothing changes".
- Overlapping searches are not modelled. Each handler is one atomic transition, so a late answer overwriting a newer one is not captured.
- The plain input setters are not modelled: the wizard's title, description, date and colour, the character description and references, and the unused `equipo` list.
- The text of the null-id TypeError is the V8 wording (`Cannot read properties of null (reading 'id')`); other JavaScript engines word it differently.
- The confirmation prompt's "Revisar detalles" button is not modelled. It only hides the prompt.
- ProjectWizard.Confirmed: a remembered position past the end of the list can be reached by editing, closing with X and deleting entries. JavaScript then writes past the end and leaves holes. The model appends instead, as if the holes were dropped.
- ProjectWizard.NewProjectPage.AgregarPersonaje: same simplification as `Confirmed` for a remembered position past the end.
- CompanyFounding.ParseFailure: a backend message that is itself JSON text would be parsed by `JSON.parse` in the source. The model assumes only the encoded company-insert error parses.
- Text.ToUpper: only ASCII and Latin-1 letters with a one-character upper case are covered. `ß` and letters outside Latin-1 are left as they are.
- String lengths count Unicode code points, not UTF-16 units, in the length-3 checks. Text outside the Basic Multilingual Plane is therefore measured differently.
- `getUser` is one oracle call. "No user" and a transport error are both modelled as its failure.
- `getPublicUrl` is an oracle function of bucket and path.
- The replies to the `script_url` and `image_url` updates are ignored, as in the source.
