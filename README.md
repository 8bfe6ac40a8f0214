# IT-services record store, modelled in Dafny

This project models the core of *sistema-servicos-ti*, a small React application that an IT-services business uses to keep track of three things:

- its clients (`clientes`);
- the service requests made for them (`servicos`), each with a type, a budget (`orcamento`), a status and a date;
- the post-service ratings (`avaliacoes`), each with a score of one to five stars (`nota`).

One shared store holds the three collections and a single notification slot. It mirrors each collection into key-value storage. Four pages work on top of it:

- a dashboard that derives figures from the collections;
- a services page;
- a ratings page;
- a clients page.

Each page checks its form before it calls the store. The store itself never rejects anything. So the invariants the application relies on only hold because of those page checks: one rating per service, scores on the five-star scale, positive budgets and known statuses. The model proves each check together with the store operation it guards.

Layout, one module per file:

| file | module | models |
|---|---|---|
| `records.dfy` | `Records` | the three record kinds, form and patch shapes, statuses, the seed data |
| `seqs.dfy` | `Seqs` | `filter` and the stable descending `sort` that every page uses |
| `scores.dfy` | `Scores` | score sums, sum/count averages and one-decimal rounding |
| `store.dfy` | `Store` | the shared store (`DataContext.jsx`) as class `DataStore` |
| `dashboard.dfy` | `Dashboard` | the dashboard figures (`Dashboard.jsx`) |
| `avaliacoes.dfy` | `Avaliacoes` | the ratings page (`Avaliacoes.jsx`) |
| `servicos.dfy` | `Servicos` | the services page (`Servicos.jsx`) |
| `clientes.dfy` | `Clientes` | the clients page (`Clientes.jsx`) |

How the model is shaped:

- **The store and the pages are classes.**
  - `DataStore` has the three collections as `seq` fields, plus the message slot and the storage map. Its methods reassign those fields and state the new state exactly. They also say that every other collection is left alone.
  - Each page is a class whose fields are its form state and whose methods are its event handlers. The handlers call the store.
- **Derived figures are functions with lemmas.** Where the source builds a figure with a loop that updates a dictionary, the model has a method with loop invariants. That method is proved equal to a loop-free definition, and the lemmas are proved about that definition. Two figures are built this way: the count of services per type and the average score per service type.
- **Numbers are integers.**
  - A budget is a whole number.
  - An average is a pair of sum and count.
  - A value the page shows with `toFixed(1)` is an integer number of tenths, rounded half up.
- **Outside inputs are parameters.** The clock reading used as a new record's id, today's date and the answer to a confirmation dialog are all passed in.

## Model

| member | source | states |
|---|---|---|
| Seqs.Filter | src/contexts/DataContext.jsx:97 | `filter` keeps exactly the elements the predicate accepts and never grows the list; it keeps every element iff every element is accepted |
| Seqs.FilterConcat | src/contexts/DataContext.jsx:96-98 | filtering works piece by piece, so the kept records stay in their original order |
| Seqs.FilterPrefix | src/pages/Dashboard.jsx:25-27 | filtering the first n elements gives a prefix of filtering them all |
| Seqs.FilterKeysDistinct | src/contexts/DataContext.jsx:129-131 | filtering keeps distinct any key that no two elements shared |
| Seqs.SortDesc | src/pages/Dashboard.jsx:19 | the descending sort yields a non-increasing list that is a permutation of its input |
| Seqs.InsertSorted | src/pages/Dashboard.jsx:19 | one insertion step of that sort keeps a sorted list sorted |
| Seqs.InsertStable | src/pages/Dashboard.jsx:19 | among the elements with one key, an inserted element lands ahead of those already there |
| Seqs.SortDescStable | src/pages/Dashboard.jsx:19 | the sort is stable: for every key, the elements with that key come out in their input order |
| Scores.SumNotasBounds | src/pages/Dashboard.jsx:11 | with every score in 1..5, the `reduce` sum lies between the number of ratings and five times that number |
| Scores.RoundTenths | src/pages/Dashboard.jsx:11 | `toFixed(1)` of a quotient, read in tenths, is the tenth nearest to it, with halves rounded up |
| Scores.MeanTenthsBounds | src/pages/Dashboard.jsx:10-12 | a mean of five-star scores shows between 1.0 and 5.0 |
| Store.SaveThenLoadClientes | src/contexts/DataContext.jsx:59-79 | saving clients and loading them again gives them back when the list was non-empty; an empty list writes nothing, so loading gives what storage held before |
| Store.SaveThenLoadServicos | src/contexts/DataContext.jsx:59-79 | the same round trip for services |
| Store.SaveThenLoadAvaliacoes | src/contexts/DataContext.jsx:59-79 | the same round trip for ratings |
| Store.ReloadMirrored | src/contexts/DataContext.jsx:59-79 | a restart over mirrored storage reloads every non-empty collection unchanged |
| Store.UpdateWhere | src/contexts/DataContext.jsx:92-94 | an update by id keeps the length and the order; records with another id are unchanged and a matching record gets the merge |
| Store.UpdateAbsent | src/contexts/DataContext.jsx:111-113 | updating an id that no record carries changes nothing |
| Store.UpdateTwice | src/contexts/DataContext.jsx:111-113 | applying the same idempotent merge twice equals applying it once |
| Store.UpdateClientesTwice | src/contexts/DataContext.jsx:92-94 | applying the same client update twice gives the same list as applying it once |
| Store.UpdateServicosTwice | src/contexts/DataContext.jsx:111-113 | applying the same service update twice gives the same list as applying it once |
| Store.RemoveById | src/contexts/DataContext.jsx:96-98 | a delete by id keeps exactly the records whose id differs |
| Store.RemoveAbsent | src/contexts/DataContext.jsx:115-117 | deleting an id that no record carries changes nothing |
| Store.RemoveTwice | src/contexts/DataContext.jsx:129-131 | deleting twice equals deleting once |
| Store.RemoveKeepsDistinct | src/contexts/DataContext.jsx:129-131 | a delete by id keeps any other key unique if it was unique before |
| Store.DataStore.constructor | src/contexts/DataContext.jsx:59-79 | at start-up each collection is the stored one or else the seed data, and the non-empty ones are written back |
| Store.DataStore.ShowMessage | src/contexts/DataContext.jsx:81-84 | the notification slot holds the given text and kind |
| Store.DataStore.SetClientes | src/contexts/DataContext.jsx:69-71 | replacing the clients writes them to storage only when the list is non-empty |
| Store.DataStore.SetServicos | src/contexts/DataContext.jsx:73-75 | the same for services |
| Store.DataStore.SetAvaliacoes | src/contexts/DataContext.jsx:77-79 | the same for ratings |
| Store.DataStore.AddCliente | src/contexts/DataContext.jsx:86-90 | returns the new client with the fresh id; the clients become the old ones plus exactly that record; nothing else changes |
| Store.DataStore.UpdateCliente | src/contexts/DataContext.jsx:92-94 | the clients become the merged list; services, ratings and the message are untouched |
| Store.DataStore.DeleteCliente | src/contexts/DataContext.jsx:96-98 | the clients lose exactly the records with that id; services and ratings that refer to the client stay |
| Store.DataStore.AddServico | src/contexts/DataContext.jsx:100-109 | appends one service whose client id and budget are the form's numbers, with the other fields copied |
| Store.DataStore.UpdateServico | src/contexts/DataContext.jsx:111-113 | the services become the merged list; nothing else changes |
| Store.DataStore.DeleteServico | src/contexts/DataContext.jsx:115-117 | the services lose exactly the records with that id; ratings of the service stay |
| Store.DataStore.AddAvaliacao | src/contexts/DataContext.jsx:119-127 | appends one rating with the form's service id and score, without looking for an earlier rating |
| Store.DataStore.DeleteAvaliacao | src/contexts/DataContext.jsx:129-131 | the ratings lose exactly the records with that id |
| Dashboard.ServicosConcluidos | src/pages/Dashboard.jsx:8 | the completed count is at most the total; it is 0 iff no service is completed and equals the total iff all are |
| Dashboard.NotaMediaRange | src/pages/Dashboard.jsx:10-12 | the average shows 0 with no ratings and between 1.0 and 5.0 otherwise |
| Dashboard.Demandas | src/pages/Dashboard.jsx:14-17 | each client is paired, in order, with the number of services whose client id is its id |
| Dashboard.ClientesDemanda | src/pages/Dashboard.jsx:14-19 | the demand list is sorted non-increasing and is a permutation of the clients with at least one service |
| Dashboard.ClientesDemandaRows | src/pages/Dashboard.jsx:14-19 | every row carries a real client and its true count, which is positive; every client with a service has its row |
| Dashboard.ClientesDemandaEmpates | src/pages/Dashboard.jsx:14-19 | clients with the same number of services keep the order of the client list |
| Dashboard.ContaTipo | src/pages/Dashboard.jsx:21-24 | a type's count is at most the number of services and is positive iff some service has that type |
| Dashboard.TiposEmOrdem | src/pages/Dashboard.jsx:21-25 | the counting object's keys are distinct and are exactly the types that occur |
| Dashboard.ContarServico | src/pages/Dashboard.jsx:22-24 | one `forEach` step creates the type's entry when missing and adds one, keeping the entries equal to the counts so far |
| Dashboard.ServicosContagem | src/pages/Dashboard.jsx:21-25 | the loop's `Object.entries` equals the loop-free definition of the counts |
| Dashboard.ContagensCorrect | src/pages/Dashboard.jsx:21-25 | every type that occurs has exactly one entry; each count is the number of services of that type and at least 1; the counts add up to the number of services |
| Dashboard.MaisSolicitadosTop | src/pages/Dashboard.jsx:25-27 | at most five rows, sorted by count and taken from the entries; any entry left out counts no more than the fifth row |
| Dashboard.MaisSolicitadosEmpates | src/pages/Dashboard.jsx:21-27 | for each count, the top five's types with that count are the first types counted with it, so ties are settled by first appearance |
| Dashboard.DeFora | src/pages/Dashboard.jsx:25-27 | in a sorted list, an entry beyond the first five counts no more than the fifth |
| Dashboard.PercentualRange | src/pages/Dashboard.jsx:82-93 | a row exists iff there are services, so the total is never zero; each share lies in (0, 100] and shows between 0.0 and 100.0 |
| Avaliacoes.ErroSubmissao | src/pages/Avaliacoes.jsx:18-31 | the three checks in order (service chosen, score chosen, service not yet rated); the rating is added iff all pass |
| Avaliacoes.SubmissaoPreservaValidade | src/pages/Avaliacoes.jsx:28-33 | a submit that passes the checks keeps one rating per service and every score in 1..5 |
| Avaliacoes.CargaValida | src/contexts/DataContext.jsx:47-50 | the ratings loaded at start-up are valid: the seed ratings, or a stored list that was valid when saved (loading at lines 59-66) |
| Avaliacoes.ExclusaoPreservaValidade | src/pages/Avaliacoes.jsx:38-43 | deleting a rating keeps one rating per service and every score in 1..5 |
| Avaliacoes.StoreAceitaDuplicata | src/contexts/DataContext.jsx:119-127 | the store alone would take a second rating of a service; the page's check refuses it |
| Avaliacoes.Opcoes | src/pages/Avaliacoes.jsx:103-110 | one option per completed service, in order, disabled iff the service already has a rating |
| Avaliacoes.OpcoesRule | src/pages/Avaliacoes.jsx:13 | every option is a completed service, and an enabled option with a star score passes every check |
| Avaliacoes.OpcoesConcluidas | src/pages/Avaliacoes.jsx:103-110 | every option of the service select stands for a completed service |
| Avaliacoes.TiposAvaliados | src/pages/Avaliacoes.jsx:48-54 | the per-type keys are distinct and a type appears iff some service of that type has a rating |
| Avaliacoes.PlacarTipoDireto | src/pages/Avaliacoes.jsx:48-58 | with unique service ids, a type's sum and count are those of exactly the ratings whose service has that type |
| Avaliacoes.AvaliacaoOrfaIgnorada | src/pages/Avaliacoes.jsx:48-51 | a rating whose service no longer exists leaves the per-type table unchanged |
| Avaliacoes.MesmasAvaliacoesPorServico | src/pages/Avaliacoes.jsx:48-60 | the per-type table depends on the ratings only through each service's own list |
| Avaliacoes.PlacarTipoNovaAvaliacao | src/pages/Avaliacoes.jsx:55-58 | one more rating adds its score to a type once for each service with its id and that type |
| Avaliacoes.LinhasNoIntervalo | src/pages/Avaliacoes.jsx:62-66 | every row counts at least one rating, and with scores in 1..5 its mean shows between 1.0 and 5.0 |
| Avaliacoes.SomarAvaliacoes | src/pages/Avaliacoes.jsx:55-58 | the inner loop adds one service's ratings to its type's entry and changes no other entry |
| Avaliacoes.AcumularServico | src/pages/Avaliacoes.jsx:49-59 | one outer step keeps the keys and entries equal to the per-type definition over the services seen so far |
| Avaliacoes.CalcularNotaMediaPorTipo | src/pages/Avaliacoes.jsx:45-67 | the nested loops and the sort give the loop-free rows, sorted non-increasing by mean |
| Avaliacoes.MontarLinhas | src/pages/Avaliacoes.jsx:62-66 | one row per accumulated type, in key order, equal to the loop-free rows |
| Avaliacoes.EstrelasTabela | src/pages/Avaliacoes.jsx:169 | for a score in 0..5 the star string has five characters: exactly `nota` full stars followed by empty ones |
| Avaliacoes.RenderStars | src/pages/Avaliacoes.jsx:74-77 | star k is filled iff k is at most the hovered star, or at most the score when nothing is hovered or the stars are not clickable |
| Avaliacoes.EstrelasConcordam | src/pages/Avaliacoes.jsx:77 | with no star hovered, the form's clickable stars fill exactly the stars the ratings table shows for the same score |
| Avaliacoes.EstrelasArredondadas | src/pages/Avaliacoes.jsx:210-211 | `Math.round` of a mean shown in tenths is the nearest whole star, with halves rounded up |
| Avaliacoes.EstrelasMedia | src/pages/Avaliacoes.jsx:210-211 | a type's star string has five characters, full star k exactly when the mean is at least k - 0.5 |
| Avaliacoes.PaginaAvaliacoes.constructor | src/pages/Avaliacoes.jsx:6-11 | the form starts empty with score 0 and no star hovered |
| Avaliacoes.PaginaAvaliacoes.SelecionarServico | src/pages/Avaliacoes.jsx:97-110 | picks the empty choice or an enabled option; only the form's service changes; the chosen service is completed and has no rating yet |
| Avaliacoes.PaginaAvaliacoes.ClicarEstrela | src/pages/Avaliacoes.jsx:127 | clicking star 1..5 sets only the score |
| Avaliacoes.PaginaAvaliacoes.EntrarEstrela | src/pages/Avaliacoes.jsx:79 | hovering a star records it |
| Avaliacoes.PaginaAvaliacoes.SairEstrela | src/pages/Avaliacoes.jsx:80 | leaving a star clears the hover |
| Avaliacoes.PaginaAvaliacoes.EditarComentario | src/pages/Avaliacoes.jsx:134 | typing changes only the comment |
| Avaliacoes.PaginaAvaliacoes.Submeter | src/pages/Avaliacoes.jsx:15-36 | a failed check adds nothing, keeps the form and storage and shows its error; a pass appends one rating scored 1..5, writes the ratings to storage, resets the form and shows success; valid ratings stay valid; a rating chosen through the select is for a completed service |
| Avaliacoes.PaginaAvaliacoes.Excluir | src/pages/Avaliacoes.jsx:38-43 | a rating is deleted only after confirmation; the save leaves the old snapshot in storage when the list becomes empty; valid ratings stay valid |
| Servicos.ErroSubmissao | src/pages/Servicos.jsx:31-39 | a missing client, type or budget gives the required-fields error; a budget of 0 or less gives the budget error; the service is added iff neither applies |
| Servicos.SubmissaoPreservaValidade | src/pages/Servicos.jsx:36-41 | a submit that passes the checks, with a type from the type select, keeps every budget positive and every type and status one the selects offer |
| Servicos.CargaValida | src/contexts/DataContext.jsx:18-46 | the services loaded at start-up are valid: the seed services, or a stored list that was valid when saved (loading at lines 59-66) |
| Servicos.ExclusaoPreservaValidade | src/pages/Servicos.jsx:53-58 | deleting a service keeps every budget positive and every type and status offered |
| Servicos.AlteraSomenteStatus | src/pages/Servicos.jsx:60-63 | a status change alters only the status of the services with that id |
| Servicos.AlteracaoPreservaValidade | src/pages/Servicos.jsx:176-192 | changing to an offered status keeps every budget positive and every type and status offered |
| Servicos.CorStatus | src/pages/Servicos.jsx:65-72 | green iff completed, yellow iff in progress, red iff cancelled, grey iff the status is none of the three |
| Servicos.CoresDasOpcoes | src/pages/Servicos.jsx:189-191 | the three offered statuses have three different colours, and no valid service is grey |
| Servicos.PaginaServicos.constructor | src/pages/Servicos.jsx:19-26 | the form starts empty, with status "Em andamento" and today's date |
| Servicos.PaginaServicos.Editar | src/pages/Servicos.jsx:83-140 | the inputs change the five editable fields, the type from the options of the type select (lines 99-109); the status stays the default |
| Servicos.PaginaServicos.Submeter | src/pages/Servicos.jsx:28-51 | a failed check adds nothing and keeps the form and storage; a pass appends one service, writes the services to storage and resets the form; valid services stay valid |
| Servicos.PaginaServicos.Excluir | src/pages/Servicos.jsx:53-58 | a service is deleted only after confirmation; the save leaves the old snapshot in storage when the list becomes empty; valid services stay valid |
| Servicos.PaginaServicos.AlterarStatus | src/pages/Servicos.jsx:60-63 | stores the status-only update, saves the services, shows "Status atualizado!", and keeps valid services valid |
| Clientes.AtualizacaoPeloForm | src/pages/Clientes.jsx:17-20 | saving in edit mode gives each client with that id the form's three fields and keeps its id; other clients are unchanged |
| Clientes.EditarSemMudancas | src/pages/Clientes.jsx:29-31 | editing a client and saving the unchanged form leaves the collection as it was, when no other client has the same id |
| Clientes.PaginaClientes.constructor | src/pages/Clientes.jsx:6-7 | the form starts empty and not in edit mode |
| Clientes.PaginaClientes.Editar | src/pages/Clientes.jsx:57-77 | the three inputs set the form |
| Clientes.PaginaClientes.Submeter | src/pages/Clientes.jsx:9-27 | an empty field changes nothing but the error message; in edit mode a valid form updates the edited client, saves it and leaves edit mode; otherwise it adds a client and saves; the form is then cleared |
| Clientes.PaginaClientes.EditarCliente | src/pages/Clientes.jsx:29-33 | loads exactly the client's three fields and enters edit mode for its id |
| Clientes.PaginaClientes.Excluir | src/pages/Clientes.jsx:35-40 | a client is deleted only after confirmation, with the old snapshot kept in storage when the list becomes empty; its services and ratings stay |
| Clientes.PaginaClientes.Cancelar | src/pages/Clientes.jsx:42-45 | leaves edit mode and clears the form without touching the store |

## Left out

- Rendering is not modelled: the JSX, the CSS and the inline styles. Routing (`src/App.jsx`) and the page layout (`src/components/Layout.jsx`) are not part of this model either.
- React's hook mechanics are not modelled: `useState`, effect scheduling and context lookup. The store's methods run one after another. Each setter applies its save effect at once, and start-up is one constructor call.
- Serialisation is not modelled. Storage is a map from key to the collection last written there, so a stored value that fails to parse has no counterpart.
- `Store.DataStore.AddServico`: requires the form's client id and budget to be present. Likewise `Store.DataStore.AddAvaliacao` requires the service id. Converting an empty value to a number gives `NaN` in the source. The pages never make that call, because their checks run first.
- The fresh id from `Date.now()` is a parameter. Id uniqueness is not assumed, except where a lemma says so: `Avaliacoes.PlacarTipoDireto` and `Clientes.EditarSemMudancas`.
- Today's date is a parameter, and so is the answer to a confirmation dialog. Page scrolling is not modelled.
- The three-second timer that clears the message is not modelled.
- Floating point is not modelled.
  - Budgets are whole numbers.
  - Averages and percentages are integers in tenths, the nearest tenth with halves rounded up.
  - Binary rounding in `toFixed` and the `parseFloat`/`parseInt` of arbitrary text are not modelled.
- `Avaliacoes.CalcularNotaMediaPorTipo`: sorts on the same rounded one-decimal mean the page shows. Its own contract states sorted and equal to the sort of the loop-free rows. The sort's stability is proved separately, by `Seqs.SortDescStable`.
- `Dashboard.ServicosContagem` and `Avaliacoes.CalcularNotaMediaPorTipo` keep their keys in first-insertion order. `Object.entries` lists integer-like keys first, and no service type has such a name, so the order is the same.
- `Avaliacoes.EstrelasTabela`: requires a score in 0..5, and `Avaliacoes.EstrelasMedia` a mean in 0..50 tenths. Outside that range `repeat` throws; such a rating cannot come from the page, whose stars set 1..5.
- `Avaliacoes.PlacarTipoDireto`: with duplicated service ids, the source counts a rating once per matching service. `Avaliacoes.PlacarTipoNovaAvaliacao` states that case.
- The page lists that join records for display are not modelled: the client name shown next to a service or a rating.
