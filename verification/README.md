# ERPWebUI core, modelled in Dafny

ERPWebUI is a React dashboard for an ERP back end. It has an authenticated
axios client, a route guard, list screens and forms:

- clients (`Clientes`, `ClienteNovo`, `ClienteEditar`, `ClienteVisualizar`);
- suppliers (`Fornecedores`);
- users (`Usuarios`);
- companies (`Empresas`);
- a breadcrumb layout (`Root`, `RootLayout`).

This project models the logic inside those screens as pure Dafny functions
over immutable data:

- the session's token handling in the request and response interceptors,
  login and logout;
- the guard's render or redirect decision;
- the CNPJ, phone and CEP display formatters;
- the search and filter predicates of every list, and the local effects of
  deleting and toggling;
- the ramo (line of business) filter modal of the client list;
- the client form:
  - the validation schema;
  - the mapping from form values to the JSON payload, on both the new and
    the edit screen;
  - the mapping from a stored client back into the form on the edit screen;
- the labels and links of the client view;
- the company wizard:
  - its steps;
  - its edit dialog;
  - the multipart fields it sends;
  - its search;
- the breadcrumb trail computed from the pathname.

Files and modules:

| file | module | screen |
|---|---|---|
| `wrappers.dfy` | `Wrappers` | `Option`, used for nullable JSON fields and failing conversions |
| `text.dfy` | `Text` | JavaScript string helpers on ASCII: digits, `toLowerCase`, `includes`, `split`, `join`, `toString`, `parseInt` |
| `seqs.dfy` | `Seqs` | `Array.prototype.filter`, with subsequence and multiplicity facts |
| `session.dfy` | `Session` | `api.ts` |
| `route_guard.dfy` | `RouteGuard` | `ProtectedRoute.tsx` |
| `formatters.dfy` | `Formatters` | the `formatarCNPJ`, `formatarTelefone` and `formatarCEP` helpers repeated across the screens |
| `fornecedores.dfy` | `Fornecedores` | `Fornecedores.tsx` |
| `clientes.dfy` | `Clientes` | `Clientes.tsx` |
| `usuarios.dfy` | `Usuarios` | `Usuarios.tsx` |
| `cliente_form.dfy` | `ClienteForm` | the schema and payload shared by `ClienteNovo.tsx` and `ClienteEditar.tsx` |
| `cliente_editar.dfy` | `ClienteEditar` | the load mapping of `ClienteEditar.tsx` |
| `cliente_visualizar.dfy` | `ClienteVisualizar` | `ClienteVisualizar.tsx` |
| `empresas.dfy` | `Empresas` | `Empresas.tsx` |
| `breadcrumbs.dfy` | `Breadcrumbs` | `Root.tsx` and `RootLayout.tsx`, whose breadcrumb code is the same |

The browser's `localStorage` token and `window.location` are a `Session.State`
value. A settled HTTP call is a `Settled` value passed in. A request's
outcome, and every server reply, is a parameter.

The system's design description and its code differ in two places. The model
follows the code in both:

- The design has the guard add the `expired` flag only after a 401, and not
  after an explicit logout. `ProtectedRoute.tsx` always navigates to
  `/login?expired=true` (`RouteGuard.Guard`).
- The design has the 401 handler call a registered authentication callback.
  `api.ts` only removes the token and sets the location
  (`Session.InterceptResponse`).

## Model

| member | source | states |
|---|---|---|
| Session.AttachToken | src/api/api.ts:11-19 | With a stored non-empty token, the request gets `Authorization: Bearer <token>` and keeps its URL and every other header. Without one, it leaves unchanged. |
| Session.AttachedCredentialIsToken | src/api/api.ts:13-16 | The credential a request carries after the interceptor is exactly the stored token. |
| Session.InterceptResponse | src/api/api.ts:25-36 | The outcome is passed on untouched. A 401 failure removes the token and sends the browser to `/login?expired=true`. Every other outcome leaves the session as it was. |
| Session.InterceptResponseIdempotent | src/api/api.ts:29-35 | Handling the same outcome twice leaves the session as handling it once. |
| Session.ReplayFromExpired | src/api/api.ts:29-35 | Once expired, no sequence of outcomes restores a token or leaves the expired page. |
| Session.UnauthorizedIsFailClosed | src/api/api.ts:30-33 | If any outcome in a sequence is a 401, the session ends logged out on the expired page, whatever came after it. |
| Session.OtherOutcomesLeaveState | src/api/api.ts:26-28 | A sequence without a 401 leaves the session unchanged. |
| Session.Login | src/api/api.ts:38-51 | Login succeeds exactly when the reply is 200 and carries a non-null token. The token is stored and the location kept. On failure or a thrown error, nothing changes. |
| Session.LoginThenRequestCarriesToken | src/api/api.ts:42-45 | After a successful login with a non-empty token, every request carries that token. |
| Session.LoginWithEmptyTokenSendsNoCredential | src/api/api.ts:42-45 | A 200 reply with an empty token counts as a successful login, yet the next request goes out without a credential. |
| Session.Logout | src/api/api.ts:53-62 | Logout removes the token and goes to `/login`, which is not the expired page. |
| Session.LogoutStopsAttaching | src/api/api.ts:53-62 | After a logout, or after a 401, requests carry no credential. |
| RouteGuard.Guard | src/components/auth-components/ProtectedRoute.tsx:8-38 | While loading, it shows the placeholder. When authenticated, it shows the children. Otherwise it shows nothing and navigates to `/login?expired=true` with replace. Each of the three is an if-and-only-if. |
| RouteGuard.RedirectExcludesChildren | src/components/auth-components/ProtectedRoute.tsx:13-17 | A redirect never happens together with rendering the children or the placeholder. |
| Formatters.FormatCnpj | src/routes/Fornecedores.tsx:27-39 | Input "" gives "-". Input with exactly 14 digits gives text fitting `00.000.000/0000-00` with the same digits. Anything else is returned unchanged. |
| Formatters.FormatPhone | src/routes/Fornecedores.tsx:42-65 | A missing or empty number gives "-". With 10, 11, 8 or 9 digits, the text fits the matching mask and keeps the same digits. Any other count is returned unchanged. |
| Formatters.FormatCep | src/routes/ClienteVisualizar.tsx:37-48 | A missing or empty CEP gives "-". With 8 digits, it fits `00000-000` with the same digits. Otherwise it is unchanged. |
| Formatters.FitsDigitsUnique | src/routes/Fornecedores.tsx:27-39 | Two texts that fit the same mask and have the same digits are equal, so the formatter contracts pin the output down. |
| Formatters.FormatCnpjIdempotent | src/routes/Fornecedores.tsx:27-39 | Formatting a CNPJ twice equals formatting it once. |
| Formatters.FormatPhoneIdempotent | src/routes/Clientes.tsx:35-58 | Formatting a phone number twice equals formatting it once. |
| Formatters.FormatCepIdempotent | src/routes/ClienteVisualizar.tsx:37-48 | Formatting a CEP twice equals formatting it once. |
| Formatters.FormatPhoneKeepsDigits | src/routes/ClienteVisualizar.tsx:57-80 | A present phone number keeps its digits through formatting, whatever its length. |
| Fornecedores.FilterSuppliers | src/routes/Fornecedores.tsx:171-179 | The result is an order-preserving subsequence. Every kept supplier matches (name or e-mail ignoring case, raw CNPJ or phone as typed). Every matching supplier is kept with its multiplicity, and nothing else is. An empty term keeps all. |
| Fornecedores.RemoveSupplier | src/routes/Fornecedores.tsx:133-138 | After a delete, no supplier with that id is left, and every other supplier keeps its order and multiplicity. |
| Fornecedores.RemainingAccounts | src/routes/Fornecedores.tsx:157 | The accounts without `idConta`, in order. Every other account keeps its multiplicity. A missing list reads as empty. |
| Fornecedores.RemoveAccount | src/routes/Fornecedores.tsx:149-158 | Only the selected supplier's account list changes, and it is present afterwards. No selection stays no selection. |
| Fornecedores.RemoveAbsentSupplier | src/routes/Fornecedores.tsx:133-138 | Deleting an id nobody has changes nothing. |
| Clientes.FilterByRamos | src/routes/Clientes.tsx:144-149 | With no ramo selected, every client shows. Otherwise exactly the clients whose ramo id, as text, is selected show, in order and with their multiplicity. |
| Clientes.ClientsWithoutRamoHidden | src/routes/Clientes.tsx:144-149 | While any ramo is selected, a client with no ramo or ramo 0 is hidden. |
| Clientes.GlobalFilter | src/routes/Clientes.tsx:233-239 | A cell passes iff it is a string that contains the filter text, ignoring case. |
| Clientes.GlobalFilterIgnoresCase | src/routes/Clientes.tsx:233-239 | Lower-casing the cell or the filter first does not change the answer. |
| Clientes.ToggleRamo | src/routes/Clientes.tsx:247-255 | The id becomes a member iff it was not one. No other membership changes. An added id goes to the end. |
| Clientes.ToggleTwiceRestores | src/routes/Clientes.tsx:247-255 | Adding then removing an id restores the list. |
| Clientes.ToggleTwiceSameMembers | src/routes/Clientes.tsx:247-255 | Removing then adding an id keeps the same set of members. |
| Clientes.RemoveRamo | src/routes/Clientes.tsx:264-266 | Removing a badge drops every copy of that id and keeps the rest in order. |
| Clientes.RemoveAbsentRamo | src/routes/Clientes.tsx:264-266 | Removing an id that is not selected changes nothing. |
| Clientes.OpenFilterModal | src/routes/Clientes.tsx:91-95 | Opening the modal copies the applied selection into the working copy. |
| Clientes.ToggleInModal | src/routes/Clientes.tsx:247-255 | Only the working copy changes, and the id's membership flips. |
| Clientes.ApplyFilters | src/routes/Clientes.tsx:258-261 | Applying makes the working copy the applied selection and closes the modal. |
| Clientes.ClearFilters | src/routes/Clientes.tsx:268-271 | Clearing empties the applied selection, so every client shows, and closes the modal. |
| Clientes.ClearTempFilters | src/routes/Clientes.tsx:274-276 | Only the working copy is emptied. Applying it afterwards shows every client. |
| Clientes.RemoveRamoFilter | src/routes/Clientes.tsx:264-266 | Only the applied selection changes, and the id is gone from it. |
| Clientes.ModalRoundTrip | src/routes/Clientes.tsx:91-95 | Opening the modal, ticking an unselected ramo twice and applying leaves the applied selection as it was. |
| Clientes.FindRamo | src/routes/Clientes.tsx:281 | `find` returns None iff no ramo's id text equals the key. Otherwise it returns the first ramo whose id text equals the key. |
| Clientes.RamoBadges | src/routes/Clientes.tsx:279-287 | One badge per applied id, in order. The description is the ramo's, falling back to the id when the ramo is unknown or its description is empty. |
| Clientes.RemoveClient | src/routes/Clientes.tsx:109 | After a delete, no client with that id is left, and the others keep their order and multiplicity. |
| Usuarios.FilterUsers | src/routes/Usuarios.tsx:158-170 | Exactly the users matching the search, profile and status tests are kept, in order with their multiplicity. The defaults keep everyone. An unknown status value empties the list. |
| Usuarios.FilterUsersRestricts | src/routes/Usuarios.tsx:160-167 | Every user shown matches the search. A chosen profile holds for every user shown. "ativo" shows only active users, and "inativo" only inactive ones. |
| Usuarios.RemoveUser | src/routes/Usuarios.tsx:173-175 | After a delete, no user with that id is left, and the others keep their order and multiplicity. |
| Usuarios.ToggleStatus | src/routes/Usuarios.tsx:181-182 | The users with the id have `ativo` flipped. Every other user, and the length, are unchanged. |
| Usuarios.ToggleStatusTwice | src/routes/Usuarios.tsx:181-182 | Toggling twice restores the list. |
| Usuarios.ToggleStatusKeepsIds | src/routes/Usuarios.tsx:181-182 | Toggling never changes an id at any position. |
| ClienteForm.OrEmpty | src/routes/ClienteNovo.tsx:157-239 | `x \|\| ""`: a missing value is "", and a present one is kept. |
| ClienteForm.EncodeFlag | src/routes/ClienteNovo.tsx:157-239 | A checkbox is sent as "1" iff it is ticked, else "0". |
| ClienteForm.FlagRoundTrip | src/routes/ClienteEditar.tsx:175 | Reading back an encoded flag as `== "1"` gives the original boolean. |
| ClienteForm.NewCarrierId | src/routes/ClienteNovo.tsx:202 | A missing or empty carrier sends null. Otherwise it sends `parseInt` of the text. |
| ClienteForm.EditCarrierId | src/routes/ClienteEditar.tsx:290 | A missing, empty or "0" carrier sends null. Otherwise it sends `parseInt` of the text. |
| ClienteForm.MainAddress | src/routes/ClienteNovo.tsx:157-239 | The main address is sent with each missing optional field as "". |
| ClienteForm.OtherAddress | src/routes/ClienteNovo.tsx:157-239 | A billing or delivery address that is absent is sent as all blanks. A present one is normalised like the main address. |
| ClienteForm.JuridicoBlock | src/routes/ClienteNovo.tsx:229-238 | A missing or empty birth date becomes the fixed minimum date. The CNPJ is sent as typed. The state registration, trade name, contact name and contact mobile are sent as `x \|\| ""`. A missing block sends all of them empty. |
| ClienteForm.BuildPayload | src/routes/ClienteNovo.tsx:157-239 | Name, phone and e-mail are sent verbatim, and `idRamo` is `parseInt`. Site, notes and the billing and delivery phones are sent as `x \|\| ""`, and the commercial, fiscal and finance e-mails as typed. Each carrier id follows the screen's own rule. The block is cleared: "0", no reason, the minimum date and ids 0. A "same" flag copies the main address. `clienteJuridico` is null iff the client is not PJ. `dataCadastro` is the clock on the new screen and null on edit. The credit limit passes through. |
| ClienteForm.PayloadFlags | src/routes/ClienteNovo.tsx:157-239 | Each of the three checkboxes is sent as "1" or "0", and reading it back gives the box as ticked. |
| ClienteForm.PayloadCarriers | src/routes/ClienteEditar.tsx:290-315 | An empty carrier sends null on both screens. A carrier "0" sends null on the edit screen and 0 on the new screen. |
| ClienteForm.NewAndEditAgree | src/routes/ClienteEditar.tsx:245-327 | When no carrier is "0", the edit payload is the new payload with `dataCadastro` null. |
| ClienteForm.SchemaAcceptsIsStricter | src/routes/ClienteNovo.tsx:21-65 | Anything the schema as written accepts, the intended schema accepts. |
| ClienteForm.HiddenBlocksRejectPrivateClient | src/routes/ClienteNovo.tsx:42-65 | A private client using the main address for billing and delivery, with the default blank hidden blocks, is rejected as written but accepted as intended. |
| ClienteForm.PayloadRespectsSchema | src/routes/ClienteNovo.tsx:21-65 | When the intended schema accepts the form, the payload's name, phone, addresses and CNPJ meet the schema's length bounds. |
| ClienteEditar.Stored | src/routes/ClienteEditar.tsx:160-225 | The stored address in payload shape, each null part read as "". A missing address is all blanks. |
| ClienteEditar.AddressField | src/routes/ClienteEditar.tsx:160-225 | The form's address, sent as the main address, equals the stored reference address. |
| ClienteEditar.CarrierField | src/routes/ClienteEditar.tsx:200-201 | A null or 0 carrier loads as "0". Any other loads as its decimal text, which `parseInt` reads back. |
| ClienteEditar.Load | src/routes/ClienteEditar.tsx:157-231 | The load fails iff `idRamo` is null, or the juridico block is not null and its birth date cannot be converted. The form is PJ iff the block is not null. `idRamo` loads as decimal text. Each flag is ticked iff stored as "1". Every text field, including those of a block that is not null, loads as `x \|\| ""`, and the block's birth date goes through the date conversion. A null block loads as the blank block. |
| ClienteEditar.Resaved | src/routes/ClienteEditar.tsx:175 | A stored flag comes back as "1" iff it was "1", else "0". |
| ClienteEditar.SaveUnchanged | src/routes/ClienteEditar.tsx:245-327 | Saving a loaded form unchanged sends back the same ramo and the stored flags normalised. A carrier of 0 becomes null. The addresses are the stored ones, or the main one where flagged "same". The juridico block is null iff it was null. `dataCadastro` is null, and the credit limit is the same. |
| ClienteEditar.SaveUnchangedTexts | src/routes/ClienteEditar.tsx:245-327 | Saving a loaded form unchanged sends back every stored text: e-mail, site, notes, the two extra phones and the three extra e-mails, a null one as "". A block that is not null comes back with its CNPJ, registration, trade name, contact name and mobile, and a missing birth date as the minimum date. |
| ClienteEditar.PrivateClientRejectedOnEdit | src/routes/ClienteEditar.tsx:21-65 | A stored private client (null juridico block) loads a form that the schema as written rejects. |
| ClienteVisualizar.FormatDate | src/routes/ClienteVisualizar.tsx:50-55 | A dash iff the date is missing, empty, or the stored minimum `0001-01-01T00:00:00`. Otherwise the date goes to the locale formatter. |
| ClienteVisualizar.SentMinDateShownAsDate | src/routes/ClienteVisualizar.tsx:50-55 | The minimum date the form sends, with milliseconds and `Z`, is not recognised and is shown as a date. The stored form is shown as a dash. |
| ClienteVisualizar.SiteHref | src/routes/ClienteVisualizar.tsx:166-177 | No link iff the site is missing or empty. A link already starting with `http` is kept. Any other gets `https://` in front. |
| ClienteVisualizar.SiteHrefIdempotent | src/routes/ClienteVisualizar.tsx:168 | Applying the link rule to a link changes nothing. |
| ClienteVisualizar.FlagLabel | src/routes/ClienteVisualizar.tsx:182-191 | A stored flag shows the first of its two words iff it is "1", else the second: "Sim"/"Não" for final consumer, "Bloqueado"/"Ativo" for status. |
| ClienteVisualizar.SavedClientLabels | src/routes/ClienteNovo.tsx:157-239 | A client saved from the form shows as "Ativo", and as final consumer iff the box was ticked. |
| Empresas.NextStep | src/routes/Empresas.tsx:44 | "Next" is the smaller of the step plus one and 2, the last step of the wizard: at most both, and equal to one of them. |
| Empresas.PrevStep | src/routes/Empresas.tsx:45 | "Back" is the larger of the step minus one and 1: at least both, and equal to one of them. |
| Empresas.StepsStayInRange | src/routes/Empresas.tsx:36-45 | From step 1 or 2, any sequence of "next" and "back" clicks stays within steps 1 and 2. |
| Empresas.HandleEditAsWritten | src/routes/Empresas.tsx:178-200 | The edit dialog opens with the company's fields, a falsy value read as "". The state comes from `endereco.uf`. The wizard restarts at step 1. |
| Empresas.EditAsWrittenDropsState | src/routes/Empresas.tsx:187 | A company stored with `estado` "SP" opens with an empty state field. |
| Empresas.HandleEdit | src/lib/types.ts:1-22 | The corrected dialog reads the state from `endereco.estado`, which the type declares, and otherwise equals the as-written one. |
| Empresas.EditRestartsSteps | src/routes/Empresas.tsx:199 | Opening the edit dialog always shows step 1 and selects that company. |
| Empresas.ImageField | src/routes/Empresas.tsx:82-84 | The image part is present iff a file was chosen, and it carries that file. |
| Empresas.CompanyFields | src/routes/Empresas.tsx:71-92 | Eight company fields, none of them the id. |
| Empresas.CompanyFieldsCopied | src/routes/Empresas.tsx:71-92 | Name, CNPJ, phone and e-mail are sent as typed. |
| Empresas.CompanyFieldsBlanks | src/routes/Empresas.tsx:71-92 | Fax and notes are always sent empty. A missing state registration or site is sent as "". |
| Empresas.AddressFields | src/routes/Empresas.tsx:71-92 | Seven address fields, none of them the id. |
| Empresas.AddressFieldsSent | src/routes/Empresas.tsx:71-92 | The state is sent under `estado` from the form's `uf`. The CEP is sent as typed, and a missing complement as "". |
| Empresas.AddFields | src/routes/Empresas.tsx:68-113 | Looking up any key in the new-company body finds its first occurrence among the company, image and address parts. |
| Empresas.AddFieldsContent | src/routes/Empresas.tsx:71-92 | The new-company body has a blank fax and blank notes, and "" for a missing registration or site. |
| Empresas.AddFieldsAddressAndImage | src/routes/Empresas.tsx:68-113 | The new-company body sends the state from `uf` and a missing complement as "". It has an image iff a file was chosen, and it has no id. |
| Empresas.EditFields | src/routes/Empresas.tsx:115-156 | The edit body carries the form's id. |
| Empresas.EditLooksUpAsAdd | src/routes/Empresas.tsx:115-156 | Apart from the id, every key of the edit body has the value the new-company body gives it. |
| Empresas.EditIsAddPlusId | src/routes/Empresas.tsx:126 | Removing the id from the edit body leaves exactly the new-company body. |
| Empresas.SchemaBoundsInFields | src/routes/Empresas.tsx:17-33 | When the form schema accepts the values, the name, CNPJ, CEP, phone and e-mail sent meet its bounds. |
| Empresas.EditUnchangedResendsCompany | src/routes/Empresas.tsx:115-156 | Opening the corrected edit dialog and saving unchanged sends back the company's id, name, CNPJ, CEP and stored state, with missing values as "". |
| Empresas.SearchAsWritten | src/routes/Empresas.tsx:210-219 | An empty search reloads from the server. Otherwise it filters the list already on screen, by name ignoring case. The result is exactly the matches among the shown companies, in order, each with its multiplicity. A shown company without a name makes the handler throw, so the list stays as it was. |
| Empresas.SearchAsWrittenNarrowsCumulatively | src/routes/Empresas.tsx:210-219 | Searching "ab" and then "a" over "a" and "ab" shows only "ab", where a fresh search for "a" shows both. |
| Empresas.SearchCorrected | src/routes/Empresas.tsx:210-219 | The corrected search filters the loaded list. It keeps exactly the matching companies in order, each with its multiplicity, and keeps everything for "". |
| Empresas.CorrectedSearchForgetsHistory | src/routes/Empresas.tsx:210-219 | The corrected search's result after any sequence of keystrokes depends only on the last one. |
| Breadcrumbs.Segments | src/routes/Root.tsx:12 | The path segments are the non-empty parts of the pathname split at "/", in order: each occurs as often as in the split, and none is empty or holds a slash. |
| Breadcrumbs.Capitalise | src/routes/Root.tsx:17 | The first character is upper-cased and the rest kept. |
| Breadcrumbs.Trail | src/routes/Root.tsx:14-20 | One crumb per segment after "Home". Each has the capitalised segment as its name and "/" plus the segments up to it, joined by "/", as its path. |
| Breadcrumbs.Crumbs | src/routes/RootLayout.tsx:21-30 | Home comes first, then one crumb per segment: its capitalised name, linking to "/" followed by the segments up to it. For a pathname as the router produces it, the last crumb links to the pathname itself. |
| Breadcrumbs.CrumbPathsExtend | src/routes/Root.tsx:18 | Each crumb's path is the previous crumb's path plus "/" and its own segment. |
| Breadcrumbs.FirstSegmentPath | src/routes/Root.tsx:18 | The first segment's path is "/" plus the segment. |
| Breadcrumbs.CrumbPathsHaveNoEmptySegment | src/routes/Root.tsx:12-20 | No crumb path contains "//". |
| Breadcrumbs.CrumbPathsGrow | src/routes/Root.tsx:14-20 | Each crumb's path is strictly longer than the previous one's. |
| Breadcrumbs.CrumbPathsDistinct | src/routes/Root.tsx:35 | Crumb paths are pairwise distinct, so the React keys are unique. |
| Breadcrumbs.RootedSegments | src/routes/Root.tsx:12 | Below the root, the segments of a router pathname are exactly its fields after the leading "/". |
| Breadcrumbs.LastCrumbIsCurrentPage | src/routes/RootLayout.tsx:21-30 | For a pathname with a leading slash, no doubled slash and no trailing slash, the last crumb links to the pathname itself. |
| Breadcrumbs.Render | src/routes/Root.tsx:34-41 | The pieces alternate between link and separator, starting and ending with a link. Crumb i is piece 2i. |
| Breadcrumbs.RenderSeparators | src/routes/Root.tsx:39 | A rendering has one separator fewer than crumbs. |
| Breadcrumbs.SeparatorsPerSegment | src/routes/RootLayout.tsx:46-48 | The rendered trail has one separator per path segment. |
| Text.ParseIntOfNatToString | src/routes/ClienteEditar.tsx:247 | `parseInt` reads back the decimal text `toString` wrote. |
| Text.JoinSplit | src/routes/Root.tsx:18 | Joining the split parts with the separator gives back the original text. |
| Seqs.Filter | src/routes/Usuarios.tsx:158 | `filter` keeps, in order, exactly the elements that pass, each with its multiplicity. |

## Left out

- Network I/O, promises and their ordering are left out. Each request's outcome, the login reply and every server list are parameters. `handleFetch` in `Empresas.tsx` is the `server` parameter of the search.
- `localStorage` and `window.location` are the two fields of `Session.State`. The redirect's page load is not modelled.
- The request interceptor's error branch (`api.ts` lines 20-22) only re-rejects the error, so it is not modelled.
- `AuthProvider`'s loading and authentication flags are inputs of `RouteGuard.Guard`.
- Dates are not modelled: the locale formatting in `formatarData`, `new Date().toISOString()` for `dataCadastro`, and the birth-date conversion on load. The clock is a parameter (`Screen.NewClient(now)`). The conversion is the `dateOnly` parameter of `ClienteEditar.Load`. `FormatDate` returns `Locale(raw)` instead of the formatted text.
- The e-mail check of zod's `.email()` is the `isEmail` parameter of the schema predicates.
- Case mapping is ASCII only. `toLowerCase` and `toUpperCase` on non-ASCII letters (accents) are not modelled.
- The table library's column plumbing around `globalFilterFn` is not modelled. A cell is a `CellValue`, and a cell that is not a string is rejected, as the code's `typeof value === "string"` test does.
- File uploads, `URL.createObjectURL` previews and the `FormData` wire encoding are left out. A file is an opaque `FileRef`, and the body is the ordered list of `(key, entry)` pairs appended.
- The user list in `Usuarios.tsx` is mock data loaded behind a timer. The timer is left out, and the list is a parameter.
- Toasts, dialogs opening and closing, loading spinners and the rest of the JSX are not modelled. Only the values those screens compute are.
- The view screen's fetch of a client, and the ramo and carrier lookups that fill the selects, are parameters.
- Text.ParseInt: models `parseInt` on text that starts with decimal digits, and gives None (NaN, sent as JSON null) otherwise. Leading whitespace, signs and other radixes are not modelled, because the form only ever holds digit strings or "".

## Findings

| source | as written | input that shows it | evidently intended | confidence | as-written member | corrected member |
|---|---|---|---|---|---|---|
| src/routes/Empresas.tsx:210-219 | `handleBuscaEmpresas` filters `data`, the list already filtered by the previous keystroke, and replaces it | companies named "a" and "ab"; type "ab", then delete back to "a": only "ab" is shown | filter the list loaded from the server, so the result depends only on the current term | high, not executed | Empresas.SearchAsWrittenNarrowsCumulatively | Empresas.CorrectedSearchForgetsHistory |
| src/routes/ClienteNovo.tsx:42-65 | the schema validates the billing, delivery and juridico blocks whenever they are present, and the defaults make them present with "" fields | a private client with "same address" ticked for billing and delivery; also every stored private client opened on the edit screen | check a block only when it is shown: billing or delivery only when not "same", juridico only for a PJ client | medium, not executed; it relies on the form library handing the hidden default values to the resolver | ClienteForm.HiddenBlocksRejectPrivateClient | ClienteForm.PayloadRespectsSchema |
| src/routes/Empresas.tsx:187 | the edit dialog reads `endereco.uf`, but the company type declares `endereco.estado` | a company whose address has `estado` "SP" opens with an empty state, and saving it sends "" | read `endereco.estado` | medium, not executed | Empresas.EditAsWrittenDropsState | Empresas.EditUnchangedResendsCompany |

Further observations, modelled as the code behaves:

- A login reply of 200 with an empty token counts as success, but no credential is ever sent (`Session.LoginWithEmptyTokenSendsNoCredential`).
- The guard always redirects with the `expired` flag, even when the user never logged in.
- On the edit screen, a stored client whose `clienteJuridico` field is missing altogether counts as PJ, because the test is `!== null`.
- A stored client with a null `idRamo` cannot be opened: the load throws, and the screen navigates back.
- The new screen sends a carrier "0" as 0, while the edit screen sends it as null.
- The minimum birth date the form sends is not the one the view recognises (`ClienteVisualizar.SentMinDateShownAsDate`).
