# OrçaPro quoting core, modelled in Dafny

OrçaPro is a small web app for Brazilian freelancers and small businesses. The core of it is a
set of screens, each one a React component over a hosted database:

- the **quote composer** builds a draft quote from the item catalog and saves it as a `pendente`
  quote;
- the **catalog manager** keeps products and services and can adjust every price by a
  percentage;
- the **quote ledger** lists saved quotes, and can search, duplicate, delete them and share one
  by WhatsApp;
- the **client manager** keeps the client list;
- the **company profile** keeps one company row per user and can fill it in from the public
  tax-id (CNPJ) registry;
- the **dashboard** shell finds the signed-in user, shows the monthly statistics and passes the
  user's plan to each tab;
- the **landing page** holds the login and signup forms.

The model has one module per source file. Each component is a `class` whose fields are the
component's state. The database is `Backend.Db`, with one `seq` per table kept in insertion
order. Each handler is a `method` that changes the state the source changes. What the handlers
compute (filters, the draft operations, the price adjustment, the registry merge, the
statistics, the validators) is written as pure functions, and lemmas state the properties the
screens promise about those functions.

Files:

- `wrappers.dfy`: `Option`.
- `seqs.dfy`: `filter`, `find`, `reduce`, `map` and reversal on sequences, with their laws.
- `text.dfy`: ASCII lower-casing, `includes` as a substring predicate, and stripping non-digits.
- `types.dfy`: the records of `src/lib/types.ts`.
- `backend.dfy`: the in-memory tables and the query shapes (`eq('user_id')`, newest first,
  `.single()`).
- `share.dfy`: the WhatsApp message and link.
- `quote_composer.dfy`: `NovoOrcamento.tsx`.
- `catalog.dfy`: `Itens.tsx`.
- `quote_ledger.dfy`: `Orcamentos.tsx`.
- `client_manager.dfy`: `Clientes.tsx`.
- `company_profile.dfy`: `MinhaEmpresa.tsx`.
- `dashboard.dfy`: `dashboard/page.tsx`.
- `landing.dfy`: `page.tsx`.

Inputs that come from outside appear as parameters:

- the backend's fresh id and insertion time;
- whether an insert succeeded;
- the auth service's answers;
- the registry lookup, as a function from the digits sent to the answer;
- the start of the current month;
- `parseInt`/`parseFloat` results, as `Option` (none for `NaN`);
- the user's answer to `confirm()`;
- the data URL a `FileReader` produced;
- `toFixed(2)` and `encodeURIComponent`, as functions.

Behaviour of the code worth noting, which the model keeps:

- A quantity entry goes through `parseInt(v) || 1`. Only `NaN` and `0` become 1, so a negative
  quantity is kept (`QuoteComposer.QuantityInput`).
- The registry merge always overwrites the address with the address template. The `|| prev`
  fallback can never apply, because the template is at least eight characters long. A
  partial answer therefore writes `undefined` into the address
  (`CompanyProfile.MergeRegistry`, `CompanyProfile.MergeRegistryEmptyAnswer`).
- The client-name column also falls back to "Cliente não encontrado" when the client exists but
  has an empty name (`QuoteLedger.ClienteNome`).
- The "approved total" on the dashboard sums the totals of all the month's quotes, whatever
  their status (`Dashboard.TotalIgnoresStatus`).
- The ledger's search drops quotes whose client does not resolve, even when the search term is
  empty (`QuoteLedger.FilterOrcamentosEmptyTerm`).

## Model

| member | source | states |
|---|---|---|
| Types.FindCliente | src/app/dashboard/components/NovoOrcamento.tsx:162-163 | none exactly when no loaded client has the id; otherwise a loaded client with that id |
| Backend.SingleEmpresa | src/app/dashboard/components/MinhaEmpresa.tsx:37-41 | `.single()` gives the row exactly when the user has exactly one row, and that row is the user's |
| Text.OnlyDigits | src/app/dashboard/components/Orcamentos.tsx:100 | `replace(/\D/g, '')`: the result has only digits and is no longer than the input |
| Text.OnlyDigitsDrops | src/app/dashboard/components/Orcamentos.tsx:100 | a non-digit is removed; with the laws that digits survive and that stripping splits over concatenation, this fixes the function |
| Text.Lower | src/app/dashboard/components/Clientes.tsx:38 | same length as the input, each character lower-cased |
| Share.Mensagem | src/app/dashboard/components/Orcamentos.tsx:99 | the share message contains the client's name and the total text |
| Share.WhatsAppUrl | src/app/dashboard/components/NovoOrcamento.tsx:166-167 | the link starts with `https://wa.me/55`, the phone number read from it is the phone with every non-digit removed, and what follows the number is exactly `?text=` and the encoded message |
| Share.WhatsAppUrlCarriesMessage | src/app/dashboard/components/NovoOrcamento.tsx:167 | the link contains the encoded message, which holds the client's name and the total text |
| QuoteComposer.FindItem | src/app/dashboard/components/NovoOrcamento.tsx:64 | none exactly when no catalog item has the id; otherwise a catalog item with that id |
| QuoteComposer.AddItem | src/app/dashboard/components/NovoOrcamento.tsx:63-83 | an id outside the catalog and an id already in the draft leave the draft unchanged; otherwise exactly one line is appended that copies nome, descricao and preco, with quantity 1 and subtotal = preco |
| QuoteComposer.AddItemKeepsInvariant | src/app/dashboard/components/NovoOrcamento.tsx:67-82 | adding keeps the line ids pairwise distinct and every subtotal = price × quantity |
| QuoteComposer.AddItemTotal | src/app/dashboard/components/NovoOrcamento.tsx:73-82 | an added line raises the total by the catalog price; a refused add leaves the total |
| QuoteComposer.QuantityInput | src/app/dashboard/components/NovoOrcamento.tsx:249 | `parseInt(v) \|\| 1`: NaN and 0 give 1, every other value, negative ones included, is kept |
| QuoteComposer.SetQuantity | src/app/dashboard/components/NovoOrcamento.tsx:85-96 | only lines with the id change, getting the quantity and subtotal = preco × quantity; length, order, ids and the other lines are kept |
| QuoteComposer.SetQuantityKeepsInvariant | src/app/dashboard/components/NovoOrcamento.tsx:85-96 | a quantity change keeps ids distinct and subtotals consistent |
| QuoteComposer.SetQuantityAbsent | src/app/dashboard/components/NovoOrcamento.tsx:85-96 | an id not in the draft changes nothing |
| QuoteComposer.SetQuantityTotal | src/app/dashboard/components/NovoOrcamento.tsx:85-96 | the total moves by exactly the change of the edited line |
| QuoteComposer.RemoveItem | src/app/dashboard/components/NovoOrcamento.tsx:98-100 | a line survives exactly when its id differs; no line with the id is left |
| QuoteComposer.RemoveItemKeepsInvariant | src/app/dashboard/components/NovoOrcamento.tsx:98-100 | removing keeps ids distinct and subtotals consistent |
| QuoteComposer.RemoveItemExact | src/app/dashboard/components/NovoOrcamento.tsx:98-100 | with distinct ids, removing line k leaves the others in order and lowers the total by its subtotal |
| QuoteComposer.RemoveItemAbsent | src/app/dashboard/components/NovoOrcamento.tsx:98-100 | removing an id not in the draft changes nothing |
| QuoteComposer.TotalAdditive | src/app/dashboard/components/NovoOrcamento.tsx:102-104 | the total of an empty draft is 0 and totals add over concatenation |
| QuoteComposer.TotalOfConsistent | src/app/dashboard/components/NovoOrcamento.tsx:102-104 | on a consistent draft the total is the sum of price × quantity |
| QuoteComposer.ValidateSave | src/app/dashboard/components/NovoOrcamento.tsx:107-120 | no client, then no lines, then a signature without PRO, first failure decides; accepted exactly when none fails |
| QuoteComposer.NewQuote | src/app/dashboard/components/NovoOrcamento.tsx:124-132 | the saved record has status pendente, the draft's lines, total = the draft total, and a signature only for PRO |
| QuoteComposer.Composer.constructor | src/app/dashboard/components/NovoOrcamento.tsx:30-36 | empty lists and fields, not loading |
| QuoteComposer.Composer.Load | src/app/dashboard/components/NovoOrcamento.tsx:43-61 | the loaded clients and items are the user's rows |
| QuoteComposer.Composer.SelecionarCliente | src/app/dashboard/components/NovoOrcamento.tsx:189 | the selection becomes the chosen id |
| QuoteComposer.Composer.AdicionarItem | src/app/dashboard/components/NovoOrcamento.tsx:63-83 | the draft becomes `AddItem`'s, keeping the draft invariant |
| QuoteComposer.Composer.AtualizarQuantidade | src/app/dashboard/components/NovoOrcamento.tsx:85-96 | the draft becomes `SetQuantity` with the coerced quantity, keeping the invariant |
| QuoteComposer.Composer.RemoverItem | src/app/dashboard/components/NovoOrcamento.tsx:98-100 | the draft becomes `RemoveItem`'s, keeping the invariant |
| QuoteComposer.Composer.LimparFormulario | src/app/dashboard/components/NovoOrcamento.tsx:172-177 | client, lines, notes and signature are cleared |
| QuoteComposer.Composer.HandleSalvar | src/app/dashboard/components/NovoOrcamento.tsx:106-149 | a refused or failed save changes nothing; a successful one appends the stored `NewQuote` and clears the draft |
| QuoteComposer.Composer.HandleGerarPdf | src/app/dashboard/components/NovoOrcamento.tsx:151-159 | accepted exactly when a client is selected and the draft has a line |
| QuoteComposer.Composer.HandleEnviarWhatsApp | src/app/dashboard/components/NovoOrcamento.tsx:161-170 | no link when the selected client does not resolve; otherwise the link to its phone with the draft total |
| Catalog.FilterItens | src/app/dashboard/components/Itens.tsx:43-49 | an item is kept exactly when its lower-cased name or description contains the lower-cased term |
| Catalog.FilterItensEmptyTerm | src/app/dashboard/components/Itens.tsx:44-48 | the empty term keeps every item, in order |
| Catalog.PriceInput | src/app/dashboard/components/Itens.tsx:280 | `parseFloat(v) \|\| 0`: NaN gives 0, a parsed value is kept |
| Catalog.DefaultForm | src/app/dashboard/components/Itens.tsx:148-159 | empty name, description and unit, category Produto, price 0, no photo, the user's id |
| Catalog.ValidateItem | src/app/dashboard/components/Itens.tsx:64-73 | an empty name or zero price, then a photo without PRO, first failure decides; accepted exactly when none fails |
| Backend.SaveById | src/app/dashboard/components/Itens.tsx:75-87 | the save shared by the item and client forms: editing overwrites the rows carrying the edited id (none when that id is undefined), everything else kept; otherwise one row is appended |
| Catalog.SaveItemEdit | src/app/dashboard/components/Itens.tsx:75-80 | an edit writes the form's fields into the rows with the edited id, keeps their ids when the form has none, and leaves every other row; an edited item without an id changes nothing |
| Catalog.DeleteItem | src/app/dashboard/components/Itens.tsx:100-104 | a row survives exactly when its id differs |
| Catalog.ReadjustAll | src/app/dashboard/components/Itens.tsx:121-124 | each price is multiplied by 1 + p/100, other fields, length and order unchanged |
| Catalog.FactorCompose | src/app/dashboard/components/Itens.tsx:123 | two multipliers compose into the one of the compounded percentage |
| Catalog.ReadjustCompose | src/app/dashboard/components/Itens.tsx:121-124 | adjusting by p then q is adjusting by p + q + pq/100 |
| Catalog.FactorInverse | src/app/dashboard/components/Itens.tsx:123 | the multiplier of -100p/(100+p) inverts the one of p |
| Catalog.ReadjustInverse | src/app/dashboard/components/Itens.tsx:121-124 | an adjustment by p is undone by one of -100p/(100+p) |
| Catalog.PriceUpdates | src/app/dashboard/components/Itens.tsx:121-131 | one price-only update per loaded item, in order, carrying its id and its adjusted price |
| Catalog.ApplyUpdate | src/app/dashboard/components/Itens.tsx:127-130 | one update sets the price of the rows with that id and nothing else |
| Catalog.ApplyAllEffect | src/app/dashboard/components/Itens.tsx:126-131 | after the loop each row has the price of the last update naming it, and is otherwise unchanged |
| Catalog.LastPriceForAgree | src/app/dashboard/components/Itens.tsx:126-131 | when every update for an id writes the same price, the row ends with that price |
| Catalog.LastPriceForAbsent | src/app/dashboard/components/Itens.tsx:126-131 | a row no update names keeps its price |
| Catalog.SyncedRowPrice | src/app/dashboard/components/Itens.tsx:121-131 | on a list of exactly the user's rows, the update for a row is built from that row; other users' rows get none |
| Catalog.ReajusteOnSyncedView | src/app/dashboard/components/Itens.tsx:113-136 | with distinct row ids, every row of the user is readjusted by p and every other row is untouched |
| Catalog.CatalogScreen.constructor | src/app/dashboard/components/Itens.tsx:22-37 | empty lists, closed dialogs, empty form |
| Catalog.CatalogScreen.LoadItens | src/app/dashboard/components/Itens.tsx:51-62 | the list is the user's rows newest first |
| Catalog.CatalogScreen.ResetForm | src/app/dashboard/components/Itens.tsx:148-159 | no edited item and the default form |
| Catalog.CatalogScreen.HandleEdit | src/app/dashboard/components/Itens.tsx:142-146 | the form holds the item, which is marked as edited, and the dialog opens |
| Catalog.CatalogScreen.OnOpenChange | src/app/dashboard/components/Itens.tsx:218-221 | a closed dialog also resets the form |
| Catalog.CatalogScreen.Shown | src/app/dashboard/components/Itens.tsx:43-49 | the shown list holds exactly the loaded items matching the term |
| Catalog.CatalogScreen.HandleFotoUpload | src/app/dashboard/components/Itens.tsx:161-176 | without PRO the upload is refused and the photo unchanged; otherwise the chosen file becomes the photo |
| Catalog.CatalogScreen.HandleSave | src/app/dashboard/components/Itens.tsx:64-95 | a refused save changes nothing; otherwise the table becomes `SaveItem`'s, the dialog closes, the form resets and the list reloads |
| Catalog.CatalogScreen.HandleDelete | src/app/dashboard/components/Itens.tsx:97-111 | nothing without confirmation; otherwise the row is deleted and the list reloads |
| Catalog.CatalogScreen.HandleReajuste | src/app/dashboard/components/Itens.tsx:113-140 | a NaN or zero percentage issues no update; otherwise exactly `PriceUpdates` of the loaded list is issued, in order, and the table is the result of applying them |
| QuoteLedger.FilterOrcamentos | src/app/dashboard/components/Orcamentos.tsx:29-35 | a quote is kept exactly when its client resolves and the lower-cased client name contains the lower-cased term |
| QuoteLedger.FilterOrcamentosEmptyTerm | src/app/dashboard/components/Orcamentos.tsx:30-33 | the empty term keeps exactly the quotes whose client resolves |
| QuoteLedger.FilterOrcamentosAllResolved | src/app/dashboard/components/Orcamentos.tsx:30-33 | when every client resolves, the empty term keeps the whole list in order |
| QuoteLedger.ClienteNome | src/app/dashboard/components/Orcamentos.tsx:122-125 | never empty; the fallback text when no client has the id; any other result is the name of a client with that id |
| QuoteLedger.ClienteNomeOfResolved | src/app/dashboard/components/Orcamentos.tsx:122-125 | the column shows the first client with that id when its name is not empty |
| QuoteLedger.StatusBadge | src/app/dashboard/components/Orcamentos.tsx:106-113 | aprovado and rejeitado get their badges; every other text gets the pendente badge |
| QuoteLedger.StatusBadgeFaithful | src/app/dashboard/components/Orcamentos.tsx:106-113 | each status shows its own label, and two statuses share a badge only when they are equal |
| QuoteLedger.DuplicateRecord | src/app/dashboard/components/Orcamentos.tsx:77 | the copy has no id and no timestamp and every other field of the original |
| QuoteLedger.DuplicateRecordProperties | src/app/dashboard/components/Orcamentos.tsx:75-81 | duplicating is idempotent, a stored copy differs from the original only in id and timestamp, and equals it exactly when both are reused |
| QuoteLedger.DuplicateShownFirst | src/app/dashboard/components/Orcamentos.tsx:75-84 | after duplicating one of the user's quotes, the copy heads the newest-first list |
| QuoteLedger.DeleteOrcamento | src/app/dashboard/components/Orcamentos.tsx:62-65 | a row survives exactly when its id differs |
| QuoteLedger.LedgerScreen.constructor | src/app/dashboard/components/Orcamentos.tsx:19-22 | empty lists and term |
| QuoteLedger.LedgerScreen.LoadOrcamentos | src/app/dashboard/components/Orcamentos.tsx:37-48 | the list is the user's quotes newest first |
| QuoteLedger.LedgerScreen.LoadClientes | src/app/dashboard/components/Orcamentos.tsx:50-57 | the clients are the user's rows in table order |
| QuoteLedger.LedgerScreen.Shown | src/app/dashboard/components/Orcamentos.tsx:29-35 | the shown list holds exactly the loaded quotes matching the term |
| QuoteLedger.LedgerScreen.HandleDelete | src/app/dashboard/components/Orcamentos.tsx:59-73 | nothing without confirmation; otherwise the row is deleted and the list reloads |
| QuoteLedger.LedgerScreen.HandleDuplicate | src/app/dashboard/components/Orcamentos.tsx:75-88 | the stored copy is appended and the list reloads |
| QuoteLedger.LedgerScreen.HandleEnviarWhatsApp | src/app/dashboard/components/Orcamentos.tsx:95-104 | no link when the client does not resolve; otherwise the link to its phone with the saved total |
| ClientManager.FilterClientes | src/app/dashboard/components/Clientes.tsx:36-42 | a client is kept exactly when its lower-cased name contains the lower-cased term or its raw tax id contains the raw term |
| ClientManager.FilterClientesEmptyTerm | src/app/dashboard/components/Clientes.tsx:37-41 | the empty term keeps every client, in order |
| ClientManager.CnpjMatchIsCaseSensitive | src/app/dashboard/components/Clientes.tsx:38-39 | for every client and term: a term with an upper-case letter never matches a tax id without one, so such a client is kept exactly when its lower-cased name contains the lower-cased term |
| ClientManager.DefaultForm | src/app/dashboard/components/Clientes.tsx:107-116 | empty fields and the user's id |
| ClientManager.ValidateCliente | src/app/dashboard/components/Clientes.tsx:58-61 | accepted exactly when name and phone are not empty |
| ClientManager.SaveClienteInsert | src/app/dashboard/components/Clientes.tsx:70-74 | a new client is appended after the existing rows with every field of the form, and a form without an id gets the fresh id |
| ClientManager.SaveClienteEditKeepsIds | src/app/dashboard/components/Clientes.tsx:64-69 | an edit keeps the table's length and ids |
| ClientManager.DeleteCliente | src/app/dashboard/components/Clientes.tsx:88-92 | a row survives exactly when its id differs |
| ClientManager.ClientScreen.constructor | src/app/dashboard/components/Clientes.tsx:19-30 | empty list, closed dialog, empty form |
| ClientManager.ClientScreen.LoadClientes | src/app/dashboard/components/Clientes.tsx:44-55 | the list is the user's rows newest first |
| ClientManager.ClientScreen.ResetForm | src/app/dashboard/components/Clientes.tsx:107-116 | no edited client and the empty form |
| ClientManager.ClientScreen.HandleEdit | src/app/dashboard/components/Clientes.tsx:101-105 | the form holds the client, which is marked as edited, and the dialog opens |
| ClientManager.ClientScreen.HandleSave | src/app/dashboard/components/Clientes.tsx:57-83 | a refused save changes nothing; otherwise the table becomes `SaveCliente`'s, the dialog closes, the form resets and the list reloads |
| ClientManager.ClientScreen.OnOpenChange | src/app/dashboard/components/Clientes.tsx:126-129 | a closed dialog also resets the form |
| ClientManager.ClientScreen.Shown | src/app/dashboard/components/Clientes.tsx:36-42 | the shown list holds exactly the loaded clients matching the term |
| ClientManager.ClientScreen.HandleDelete | src/app/dashboard/components/Clientes.tsx:85-99 | nothing without confirmation; otherwise the row is deleted and the list reloads |
| CompanyProfile.DefaultEmpresa | src/app/dashboard/components/MinhaEmpresa.tsx:18-28 | every text empty, no logo, no id, the user's id |
| CompanyProfile.CnpjQuery | src/app/dashboard/components/MinhaEmpresa.tsx:49-56 | no query exactly when the raw text is shorter than 14 characters; otherwise its digits |
| CompanyProfile.CnpjQueryCountsRawText | src/app/dashboard/components/MinhaEmpresa.tsx:49-56 | fourteen punctuation marks pass the check and send an empty query; thirteen digits are refused |
| CompanyProfile.OrElse | src/app/dashboard/components/MinhaEmpresa.tsx:66-70 | `x \|\| prev`: a present non-empty value wins, otherwise the fallback |
| CompanyProfile.EnderecoTemplate | src/app/dashboard/components/MinhaEmpresa.tsx:69 | the address template is at least eight characters long (its separators), whatever is missing, so it is never empty |
| CompanyProfile.MergeRegistry | src/app/dashboard/components/MinhaEmpresa.tsx:65-71 | nome, telefone and email from the answer when non-empty, else kept; the address always from the template; id, user_id, logo, whatsapp, cnpj and responsavel kept |
| CompanyProfile.MergeRegistryIdempotent | src/app/dashboard/components/MinhaEmpresa.tsx:65-71 | merging the same answer twice equals merging it once, and the address does not depend on the previous profile |
| CompanyProfile.MergeRegistryEmptyAnswer | src/app/dashboard/components/MinhaEmpresa.tsx:65-71 | empty fields keep nome, telefone and email; missing address parts print as `undefined` |
| CompanyProfile.SaveEmpresa | src/app/dashboard/components/MinhaEmpresa.tsx:84-99 | with one row for the user, that row is overwritten in place; otherwise the profile is appended |
| CompanyProfile.SaveEmpresaKeepsOthers | src/app/dashboard/components/MinhaEmpresa.tsx:84-99 | whatever the rows before, a save leaves every other user's rows exactly as they were |
| CompanyProfile.SaveEmpresaKeepsOneRow | src/app/dashboard/components/MinhaEmpresa.tsx:84-99 | from zero or one row, a save leaves exactly one row for the user, holding the profile; a user with a row gets no second one; other users' rows are unchanged |
| CompanyProfile.EmpresaScreen.constructor | src/app/dashboard/components/MinhaEmpresa.tsx:18-30 | the default profile and both flags lowered |
| CompanyProfile.EmpresaScreen.LoadEmpresa | src/app/dashboard/components/MinhaEmpresa.tsx:36-46 | the user's single row when there is one, otherwise the form is kept |
| CompanyProfile.EmpresaScreen.BuscarCnpj | src/app/dashboard/components/MinhaEmpresa.tsx:48-79 | a short text makes no request and changes nothing; otherwise the digits are sent, not-found and unreachable leave the profile, a found answer is merged, and the flag ends lowered |
| CompanyProfile.EmpresaScreen.HandleSave | src/app/dashboard/components/MinhaEmpresa.tsx:81-107 | the table becomes `SaveEmpresa`'s, one row per user is kept, and the flag ends lowered |
| CompanyProfile.EmpresaScreen.HandleLogoUpload | src/app/dashboard/components/MinhaEmpresa.tsx:109-118 | the chosen file becomes the logo; no file, no change |
| Dashboard.LexLessIrreflexive | src/app/dashboard/page.tsx:113-117 | a timestamp is not before itself |
| Dashboard.LexLessAsymmetric | src/app/dashboard/page.tsx:113-117 | no two timestamps are each before the other |
| Dashboard.MonthQuotes | src/app/dashboard/page.tsx:110-117 | a quote is counted exactly when it is the user's and created on or after the first day of the month |
| Dashboard.MonthQuotesOrder | src/app/dashboard/page.tsx:110-117 | one of the user's quotes created after the month start is counted, and one created before it is not |
| Dashboard.MonthQuotesIncludesStart | src/app/dashboard/page.tsx:110-117 | a quote created exactly at the month start is counted |
| Dashboard.ApprovedCount | src/app/dashboard/page.tsx:127 | at most the number of quotes |
| Dashboard.ApprovedCountAppend | src/app/dashboard/page.tsx:127 | the approved count is 0 for no quotes and grows by one exactly for each further quote whose status is `aprovado` |
| Dashboard.Round | src/app/dashboard/page.tsx:133 | `Math.round`: within half a unit of the input, halves up |
| Dashboard.Rate | src/app/dashboard/page.tsx:128 | the rate times the count is 100 times the approved count; between 0 and 100, and 0 for an empty month |
| Dashboard.ComputeStats | src/app/dashboard/page.tsx:125-135 | the count of the month's quotes, the sum of their totals, and the rate `Math.round(100 × approved / count)`, which lies in [0, 100]; all zero for an empty month |
| Dashboard.AllApprovedRate | src/app/dashboard/page.tsx:127-133 | a month with every quote approved shows 100 |
| Dashboard.NoneApprovedRate | src/app/dashboard/page.tsx:127-133 | a month with no approved quote shows 0 |
| Dashboard.TotalIgnoresStatus | src/app/dashboard/page.tsx:126 | the approved total does not depend on the statuses |
| Dashboard.FallbackUser | src/app/dashboard/page.tsx:72-81 | the auth id, the auth email or '', and the free plan |
| Dashboard.TabPropsFaithful | src/app/dashboard/page.tsx:372-377 | every tab screen gets the user's id, and exactly the items, composer, ledger and plans tabs get `plano_pro` as isPro |
| Dashboard.Shell.constructor | src/app/dashboard/page.tsx:20-28 | no user, loading, no error, statistics at zero |
| Dashboard.Shell.Render | src/app/dashboard/page.tsx:153-207 | the shell shows exactly when loading ended with no error and a user |
| Dashboard.Shell.CheckUser | src/app/dashboard/page.tsx:40-103 | not configured: error, loading ends, no auth call; auth failure: error; no session: redirect home; otherwise the users row or the fallback user, and loading ends |
| Dashboard.Shell.LoadStats | src/app/dashboard/page.tsx:105-140 | nothing without user, configuration or a good query; otherwise `ComputeStats` of the month's quotes |
| Dashboard.Shell.HandleLogout | src/app/dashboard/page.tsx:142-151 | sign-out only when configured; always home |
| Dashboard.Shell.SelectTab | src/app/dashboard/page.tsx:250 | the clicked tab becomes active |
| Landing.ValidateLogin | src/app/page.tsx:32-35 | accepted exactly when email and password are not empty |
| Landing.ValidateSignup | src/app/page.tsx:56-69 | an empty field, then a mismatch, then a password under six characters, first failure decides; accepted exactly when none fails |
| Landing.ValidateSignupBoundary | src/app/page.tsx:61-69 | six characters pass, five do not, and a short mismatch is reported as a mismatch |
| Landing.ErrorText | src/app/page.tsx:49 | `error.message \|\| fallback`: a non-empty message is shown as it is, and an empty one gives the fallback text |
| Landing.InitialUser | src/app/page.tsx:81-86 | the auth id and email on the free plan |
| Landing.LandingPage.constructor | src/app/page.tsx:16-18 | not loading, no redirect |
| Landing.LandingPage.CheckSession | src/app/page.tsx:24-29 | an open session goes to the dashboard |
| Landing.LandingPage.HandleLogin | src/app/page.tsx:31-53 | an empty field makes no auth call; otherwise success redirects, failure shows the message, and loading ends |
| Landing.LandingPage.HandleSignup | src/app/page.tsx:55-96 | a failed check makes no call and changes nothing; a failed sign-up inserts nothing; success inserts the initial users row (when an account is returned), redirects, and loading ends |

## Left out

- `src/app/dashboard/components/PlanosPRO.tsx` is not part of this model: it is static marketing markup and a checkout link.
- `src/lib/pdf-generator.ts` is not part of this model: it is drawing calls into a PDF library; `handleVisualizarPDF` only shows a toast.
- `src/lib/supabase.ts` is not part of this model: its client set-up and mock client are replaced by the in-memory `Backend.Db`. Whether the backend is configured is a parameter.
- The markup, styling, dialogs, icons and the per-field `onChange` setters of every form are left out.
- React effect scheduling and async interleaving are left out. Each handler is one sequential step, and a derived list (`filteredX`) is the function `Shown()` of the state.
- The reajuste loop is not atomic under failure in the source. The model applies every update in order.
- Floating point is left out. Prices and totals are exact `real`s, and `toFixed(2)`, `toLocaleString` and `toLocaleDateString` are parameters or absent.
- `toLowerCase` is modelled on ASCII letters only. `string.length` counts Unicode code points here, where JavaScript counts UTF-16 units.
- `parseInt` and `parseFloat` are inputs. `encodeURIComponent`, `window.open`, `confirm()`, `toast`, `router.push`, `FileReader` and the registry `fetch` are parameters or outputs of the handlers.
- Toast texts are modelled only where they signal a refusal or an outcome the contracts distinguish.
- QuoteComposer.Composer.Load: the `.order('nome')` of the composer's client and item lists is not modelled. The lists are in table order.
- Backend.NewestFirst: newest-first is the reverse of insertion order, because the backend stamps `created_at` at insertion and never rewrites it.
- Dashboard.MonthQuotes: the month start is a parameter. Timestamps compare as ISO-8601 text, so time zones are not modelled.
- Dashboard.Shell.CheckUser: the fallback user's extra `nome_empresa` and `created_at` fields are not records of `User` and are dropped. A thrown error and a returned error are one case.
- Dashboard.ComputeStats: a missing `total` (`orc.total || 0`) cannot occur because `total` is a `real`. NaN totals are not modelled.
- QuoteLedger.StatusBadge: looking up `variants[status]` for inherited property names such as `constructor` is not modelled; every unknown text gets the pending badge.
- Writes in Itens.tsx, Clientes.tsx, Orcamentos.tsx and MinhaEmpresa.tsx await the backend without checking its `error` result, and so does the users-row insert of `src/app/page.tsx` after a sign-up. The model applies them all as always succeeding. NovoOrcamento.tsx does check it, and that is the `insertOk` parameter.
- The `Load*` methods of the screens model the read as always returning data. The `if (data)` path, where a failed read leaves the list as it was, is not modelled. `Dashboard.Shell.LoadStats` is the exception: its `queryOk` parameter models that path.
- CompanyProfile.Render: a registry field that is absent prints as `undefined` in the address template. A field that is present but JSON `null`, which would print as `null`, is not distinguished from an absent one.
- Rows written by `update(formData)` keep the form's own `user_id`, exactly as the source sends it. The model does not stop a form from changing a row's owner.
