# BuildSafe dashboard: a verified model of its view logic

BuildSafe's front end is a React dashboard for construction sites (*obras*), each split into work areas (*áreas*) watched by cameras (*cámaras*). Most of it renders data fetched from a REST API. Five components hold small, deterministic pieces of logic, and this project models them in Dafny and proves properties about them.

- **MonitoreoPage** (`monitoreo.dfy`, module `Monitoreo`) keeps two id-keyed maps, `streamErrors` and `streamLoading`.
  - Three events update them: the image loaded, the image failed, and the retry button was clicked.
  - The class `StreamBoard` holds the maps, with one method per event. The pure function `Handle` gives each event's effect.
  - `Step` and `Run` replay a sequence of events. An event fires only while the element that carries it is rendered.
  - The panel, the badge, the camera name and the page precedence are pure functions.
- **ObrasPage** (`obras_page.dfy`, module `ObrasList`) covers:
  - the search filter: trim, lowercase, then substring match on `nombre` or `descripcion`;
  - the two empty states;
  - the create button, shown only to coordinators;
  - loading, then error, then list precedence.
- **AreaDetallesPage** (`area_detalles_page.dfy`, module `AreaDetalles`) covers:
  - the derived error message;
  - the class `AreaDetallesController`, whose methods are the load effect, the supervisors effect and the edit, submit, delete, confirm and cancel handlers;
  - the mapping of supervisor rows to `User` records;
  - the supervisor lookup and the count of cameras per area.
- **ObraDetalle** (`obra_detalle.dfy`, module `ObraDetalleView`) covers:
  - the parse of the route id;
  - the status-badge table and its fallback;
  - the dashboard title and the render precedence;
  - the class `ObraDetalleController`, which holds the modal flags and the delete flow.
- **AreaTabContent** (`area_tab_content.dfy`, module `AreaTab`) covers:
  - the early return on a truthy `error`;
  - the class `AreaTabController`, with its open, close and submit handlers. A submit goes to the update callback while editing and to the create callback otherwise.

Supporting modules:

- `Entities` holds the records of `src/types/entities.ts`.
- `JsText` holds the JavaScript string operations used: truthiness, `trim`, `toLowerCase` on Latin letters, and `includes`.
- `JsNumbers` holds `parseInt` with and without a radix, and `Number` on a string.
- `Seqs` holds `find`, `filter` and order-preserving subsequences.
- `Wrappers` holds `Option` and `Outcome`.

The model makes four choices about the outside world:

- Every awaited call is a parameter of type `Outcome<T>`: it either returns a value or throws.
- Calls to hooks and services are logged in a `requests`, `deletions` or `calls` field.
- `navigate(path)` appends the path to a `navigations` field.
- A route parameter is an `Option<string>`, and the session user is an `Option<User>`.

A page's rendered output is a small datatype (a `...Screen`), computed by a pure `Screen` function from the page's state.

Some functions only compute and carry no contract of their own. The lemmas about them carry the properties:

- `Monitoreo.PanelFor` chooses the image, the connecting panel or the failed panel (MonitoreoPage.tsx:96-142).
- `Monitoreo.StatusFor` and `StatusLabel` give the badge (MonitoreoPage.tsx:150-166).
- `Monitoreo.Enabled`, `Step` and `Run` describe which events can fire and replay them.
- `AreaTab.TabStep` and `TabRun` replay the events the areas tab wires.
- `Monitoreo.CamaraById` is `camaras.find(c => c.id_camara === id)` (MonitoreoPage.tsx:21 and 87). `NombreCamara` and `IpText` state its result.
- `Monitoreo.CardFor` builds one card of `streams.map` (MonitoreoPage.tsx:86-175). `Monitoreo.Screen` states each of its fields.
- `JsText.IsTruthy` is JavaScript truthiness of a `string | undefined | null` value: undefined, null (both `None`) and the empty string are falsy. It models `if (areaId)` (MonitoreoPage.tsx:16), `if (error)` (ObrasPage.tsx:41, AreaTabContent.tsx:44), `areaError || …` and `error || …` (AreaDetallesPage.tsx:26, 125, 131), and `if (!id)` (ObraDetalle.tsx:47). `Monitoreo.IpText` applies the same rule to `camaraInfo?.ip_stream || 'Sin URL'` (MonitoreoPage.tsx:121, 127, 170).
- `JsText.IsWhitespace` is the set of characters `trim` removes: ECMAScript WhiteSpace and LineTerminator (ObrasPage.tsx:30).
- `Monitoreo.Flag`, `HasError` and `IsLoading` read `streamErrors[id]` and `streamLoading[id]` as conditions. A missing key is `undefined`, which is falsy (MonitoreoPage.tsx:88-89, tested at 96).
- `JsNumbers.Truthy` is a number used as a condition, as in `if (numericAreaId)` (AreaDetallesPage.tsx:66). It is false for 0 and NaN.
- `ObrasList.Matches` is the filter's predicate.
- `Entities.IsCoordinador` is the role test.
- `ObraDetalleView.EstadoText` gives the estado strings.
- `ObraDetalleView.DeleteTargetAsWritten` is the delete id as the code computes it.
- `JsNumbers.ParseInt` is `parseInt`, with radix 10 or none. It skips leading whitespace and one sign; without a radix a `0x` prefix selects hex. The longest digit run gives the value, and no digits gives NaN. `ParseIntOfIntToString` and the hex lemmas of `ObraDetalleView` state its properties.

### Where the code falls short of its evident intent (the model follows the code)

- **Stream states.** A stream is meant to go from connecting to playing or failed. In the code a camera starts out active, with its image rendered. A retry sets the loading flag, and while that flag is set no image is rendered. So no event can ever clear it, and the camera stays "connecting" for good (`Monitoreo.LoadingIsStuck` and `Monitoreo.RetryNeverRecovers`).
- **Area delete that fails.** A failed delete is meant to leave the dialog open. In `handleConfirmDelete`, a `false` result still closes the dialog (AreaDetallesPage.tsx:110). Only a thrown error leaves it open, and it also leaves `isDeleting` true, because there is no `try`/`finally`.
- **Stale area after an edit.** After an edit the page is meant never to show a stale area. In the code, a refetch that returns null keeps the old `area` and still closes the form (AreaDetallesPage.tsx:42-44).
- **The tab's form.** `handleOpenModal` is the only code that opens the areas tab's form, and the component passes it to no element. The area list gets the parent's create and update callbacks directly (AreaTabContent.tsx:135-148). So the tab never shows its own form, and its `handleSubmit` is unreachable (`AreaTab.FormNeverOpens`).
- **The tab's error prop.** The function tests `error` for truthiness, so an empty error string does not show the error panel (AreaTabContent.tsx:44).

## Model

| member | source | states |
|---|---|---|
| Monitoreo.Handle | src/components/camaras/MonitoreoPage.tsx:101-137 | Load deletes the camera's loading key. Error sets its error key and deletes its loading key. Retry deletes its error key and sets its loading key. No other camera's flags change. |
| Monitoreo.StreamBoard.constructor | src/components/camaras/MonitoreoPage.tsx:12-13 | Both flag maps start empty, so the flags are consistent. |
| Monitoreo.StreamBoard.OnLoad | src/components/camaras/MonitoreoPage.tsx:101-107 | The new loading map is the old one without the id. The error map is unchanged, and the two flags stay exclusive. |
| Monitoreo.StreamBoard.OnError | src/components/camaras/MonitoreoPage.tsx:108-115 | The error map gains id ↦ true and the loading map loses the id. The two flags stay exclusive. |
| Monitoreo.StreamBoard.Retry | src/components/camaras/MonitoreoPage.tsx:130-137 | The error map loses the id and the loading map gains id ↦ true. The two flags stay exclusive. |
| Monitoreo.InitialStreamsActive | src/components/camaras/MonitoreoPage.tsx:12-13 | A camera in neither initial map renders its image and shows "active". |
| Monitoreo.ImageIffNoFlags | src/components/camaras/MonitoreoPage.tsx:96 | The image is rendered iff the camera has neither an error flag nor a loading flag. |
| Monitoreo.HandleKeepsConsistent | src/components/camaras/MonitoreoPage.tsx:101-137 | Every handler keeps "never both flags" for every camera. |
| Monitoreo.RunKeepsConsistent | src/components/camaras/MonitoreoPage.tsx:96-137 | Every state reachable by rendered events keeps the flags exclusive. |
| Monitoreo.PanelAgreesWithStatus | src/components/camaras/MonitoreoPage.tsx:150-166 | The badge tests error, then loading. With exclusive flags, the panel and the badge agree: image ⇔ "Activa", connecting panel ⇔ "Conectando…", failed panel ⇔ "Sin conexión". |
| Monitoreo.LoadingIsStuck | src/components/camaras/MonitoreoPage.tsx:96-122 | A loading camera renders neither the image nor the retry button. After any events it is still loading, with the same error flag. |
| Monitoreo.RetryNeverRecovers | src/components/camaras/MonitoreoPage.tsx:117-137 | After a retry the camera is "connecting", with no image, whatever events follow. |
| Monitoreo.FailureThenRetry | src/components/camaras/MonitoreoPage.tsx:108-137 | A rendered image that fails shows the failed panel. A retry then shows "connecting". |
| Monitoreo.StartedArea | src/components/camaras/MonitoreoPage.tsx:15-18 | A stream start is issued iff the route id is truthy, and it uses `Number(areaId)`. |
| Monitoreo.StartsDecimalArea | src/components/camaras/MonitoreoPage.tsx:16 | The decimal text of n starts the streams of area n. |
| Monitoreo.NombreCamara | src/components/camaras/MonitoreoPage.tsx:20-23 | The `nombre` of the first camera with a matching id. With no match, "Cámara #" followed by the id. |
| Monitoreo.IpText | src/components/camaras/MonitoreoPage.tsx:170 | With a matching camera, the `ip_stream` of the first one, or "Sin URL" when that URL is empty. With no matching camera, "Sin URL". It is never empty. |
| Monitoreo.Screen | src/components/camaras/MonitoreoPage.tsx:67-175 | Precedence: spinner, then the error, then "no active cameras", then one card per stream in stream order. Each card has that stream's camera id, title, panel, badge and URL text. |
| ObrasList.NormalizeTerm | src/components/obras/ObrasPage.tsx:30 | The term is the trimmed input, lowercased, with the same length as the trimmed input. |
| ObrasList.FilteredObras | src/components/obras/ObrasPage.tsx:29-37 | A blank normalized term returns the list unchanged. The result is never longer than the input. |
| ObrasList.BlankTermKeepsAll | src/components/obras/ObrasPage.tsx:30-31 | An all-whitespace search term keeps every obra. |
| ObrasList.FilterKeepsExactlyMatches | src/components/obras/ObrasPage.tsx:33-36 | For a non-blank term, an obra is kept iff it is in the list and its lowercased nombre or descripcion contains the term. |
| ObrasList.FilteredIsSubsequence | src/components/obras/ObrasPage.tsx:33-36 | The filtered list is an order-preserving subsequence of the input. |
| ObrasList.FilterIdempotentOnTerm | src/components/obras/ObrasPage.tsx:29-37 | Filtering the filtered list again with the same term changes nothing. |
| ObrasList.Apply | src/components/obras/ObrasPage.tsx:52-102 | The search box, "Limpiar búsqueda" and the create open/close actions each replace exactly their own state field. |
| ObrasList.EmptyState | src/components/obras/ObrasPage.tsx:43-78 | A non-blank term gives "no results" with the term. Otherwise it gives "no hay obras", with the create button iff the user is a coordinator. |
| ObrasList.Screen | src/components/obras/ObrasPage.tsx:40-102 | Loading beats a truthy error, which beats the list. The list shows the filtered cards when any are left, else the empty state. |
| ObrasList.CreateButtonOnlyForCoordinador | src/components/obras/ObrasPage.tsx:62-73 | If "Crear primera obra" is shown, the session user's global role is coordinador. |
| ObrasList.ClearSearchShowsEverything | src/components/obras/ObrasPage.tsx:48-57 | "No results" implies a non-blank term. After clearing it, every obra is listed, or "no hay obras" is shown. |
| ObrasList.NoObrasWithoutSearch | src/components/obras/ObrasPage.tsx:89-99 | With no obras and a blank term, the page says "no hay obras", not "no results". |
| JsText.Trim | src/components/obras/ObrasPage.tsx:30 | The result is a slice of the input. Everything cut is whitespace, and neither end of the result is whitespace. |
| JsText.TrimBlank | src/components/obras/ObrasPage.tsx:44 | An all-whitespace string trims to the empty string. |
| JsText.ToLower | src/components/obras/ObrasPage.tsx:34 | The result has the same length and is lowercased character by character. |
| JsText.Includes | src/components/obras/ObrasPage.tsx:34-35 | True iff the needle occurs at some position of the haystack. |
| Seqs.FilterMembership | src/components/obras/ObrasPage.tsx:33 | x is in the filtered list iff x is in the list and satisfies the predicate. |
| Seqs.FilterIsSubsequence | src/components/obras/ObrasPage.tsx:33 | `filter` keeps elements in order and only deletes, never adds. |
| Seqs.Filter | src/components/obras/ObrasPage.tsx:33 | The result is no longer than the input, and every kept element satisfies the predicate and comes from the input. |
| Seqs.Find | src/components/camaras/MonitoreoPage.tsx:21 | Gives the first element satisfying the predicate, or none iff no element does. |
| JsNumbers.NatToString | src/components/camaras/MonitoreoPage.tsx:22 | The decimal text of a natural number is all digits and has no leading zeros. |
| JsNumbers.IntToString | src/components/camaras/MonitoreoPage.tsx:22 | `${n}` is non-empty and starts with a minus exactly for negative n. Its value is fixed by `ParseIntOfIntToString`. |
| JsNumbers.IntToStringDigits | src/components/camaras/MonitoreoPage.tsx:22 | After the sign, if any, `${n}` is all decimal digits. |
| JsNumbers.ParseIntOfIntToString | src/components/obras/ObraDetalle.tsx:18 | `parseInt` reads an integer's decimal text back to that integer, with or without a radix. |
| JsNumbers.ToNumber | src/components/areas/AreaDetallesPage.tsx:17 | `Number(undefined)` is NaN, and a blank string is 0. |
| JsNumbers.StringToNumberOfIntToString | src/components/areas/AreaDetallesPage.tsx:17 | `Number` reads an integer's decimal text back to that integer. |
| Entities.WithId | src/components/areas/AreaTabContent.tsx:96 | `{...areaData, id_area}` keeps every form field and adds the given id. |
| AreaDetalles.ToUser | src/components/areas/AreaDetallesPage.tsx:75-83 | A row becomes a User with usuario "", a local account and the supervisor role. It copies id, correo, nombres and apellidos, and other fields are absent. |
| AreaDetalles.SupervisoresFrom | src/components/areas/AreaDetallesPage.tsx:72-85 | The rows are mapped in order, one user per row. A failed call gives the empty list. |
| AreaDetalles.MappedSupervisoresAreSupervisors | src/components/areas/AreaDetallesPage.tsx:75-83 | Every listed supervisor comes from a successful call, has the supervisor role and a local account, and carries its row's id. |
| AreaDetalles.DisplayedError | src/components/areas/AreaDetallesPage.tsx:26 | The hook error if truthy; else nothing while loading; else "Área no encontrada" without an area; else nothing. It is truthy iff the hook error is truthy or loading ended without an area. |
| AreaDetalles.UserById | src/components/areas/AreaDetallesPage.tsx:150 | Gives the first user with that id, or none iff no user has it. |
| AreaDetalles.SupervisorAsWritten | src/components/areas/AreaDetallesPage.tsx:149-151 | As written, the lookup uses `area.id_usuario`: absent or 0 gives no supervisor. A truthy value with a listed supervisor of that id always finds one. What it finds is the first listed supervisor with that id. |
| AreaDetalles.SupervisorOf | src/components/areas/AreaDetallesPage.tsx:149-151 | The lookup uses `id_supervisor`. Absent or 0 gives none. A listed supervisor with that id is always found, and what is found is the first listed supervisor with that id. |
| AreaDetalles.SupervisorMissedAsWritten | src/components/areas/AreaDetallesPage.tsx:149-151 | An area with supervisor 7, who is in the list, shows no supervisor as written. The `id_supervisor` lookup finds them. |
| AreaDetalles.CamarasCount | src/components/areas/AreaDetallesPage.tsx:152 | At most the number of cameras; 0 iff no camera belongs to the area. |
| AreaDetalles.CamarasCountAdditive | src/components/areas/AreaDetallesPage.tsx:152 | The count of a concatenation is the sum of the counts. |
| AreaDetalles.CamarasCountSingle | src/components/areas/AreaDetallesPage.tsx:152 | One camera counts 1 exactly when its `id_area` is the area's id. |
| AreaDetalles.Screen | src/components/areas/AreaDetallesPage.tsx:117-180 | Spinner while loading; then the error panel on an error or no area; else the area with its supervisor (by the corrected `id_supervisor` lookup, see Findings) and camera count. The edit and delete callbacks are given only to a coordinator, and the dialog and form flags pass through. |
| AreaDetalles.ErrorPanelMessage | src/components/areas/AreaDetallesPage.tsx:125-131 | The panel shows the hook error or "Área no encontrada". Its fallback text appears only when the hook error is that very text. |
| AreaDetalles.AreaDetallesController.constructor | src/components/areas/AreaDetallesPage.tsx:13-31 | `numericAreaId` is `Number(areaId)`, the role comes from the session user, `loading` is true and every other flag is off. |
| AreaDetalles.AreaDetallesController.LoadArea | src/components/areas/AreaDetallesPage.tsx:53-67 | Acts only for a truthy id: it fetches, keeps the fetched area or null, and ends not loading even if the fetch throws. A falsy id changes nothing, so loading stays true. |
| AreaDetalles.AreaDetallesController.LoadSupervisores | src/components/areas/AreaDetallesPage.tsx:69-87 | With an area whose `id_obra` is truthy, it fetches that obra's supervisors and stores the mapped list. Otherwise nothing changes. |
| AreaDetalles.AreaDetallesController.HandleOpenEditModal | src/components/areas/AreaDetallesPage.tsx:32 | Opens the edit form and changes nothing else. |
| AreaDetalles.AreaDetallesController.HandleCloseEditModal | src/components/areas/AreaDetallesPage.tsx:35 | Closes the edit form and changes nothing else. |
| AreaDetalles.AreaDetallesController.HandleSubmitEdit | src/components/areas/AreaDetallesPage.tsx:36-50 | Acts only on data with `id_area`. The form closes only when the update succeeds and the refetch returns. The area is replaced only by a non-null refetch. `isSubmitting` ends false on every path. |
| AreaDetalles.AreaDetallesController.HandleEdit | src/components/areas/AreaDetallesPage.tsx:91-97 | Sends the update. On success it refetches and replaces the area only with a non-null result. |
| AreaDetalles.AreaDetallesController.HandleDelete | src/components/areas/AreaDetallesPage.tsx:99-101 | Only opens the confirmation. |
| AreaDetalles.AreaDetallesController.HandleConfirmDelete | src/components/areas/AreaDetallesPage.tsx:103-111 | Deletes `numericAreaId`. Once the call returns, `isDeleting` and the dialog end false, and the page goes to /obras only on success. A throw leaves `isDeleting` true and the dialog as it was. |
| AreaDetalles.AreaDetallesController.HandleCancelDelete | src/components/areas/AreaDetallesPage.tsx:113-115 | Only hides the confirmation. |
| ObraDetalleView.ObraId | src/components/obras/ObraDetalle.tsx:18 | With no route id, or an empty one, the result is 0. |
| ObraDetalleView.ObraIdOfDecimal | src/components/obras/ObraDetalle.tsx:18 | The decimal text of n gives `obraId` n. |
| ObraDetalleView.DeleteTargetAgreesOnDecimal | src/components/obras/ObraDetalle.tsx:50 | On decimal ids, the radix-less `parseInt` used for the delete agrees with `obraId`. |
| ObraDetalleView.DeleteTargetDiffersOnHex | src/components/obras/ObraDetalle.tsx:50 | On "0x10" the page asks for obra 0, but the delete as written would remove obra 16. |
| ObraDetalleView.BadgeForEstado | src/components/obras/ObraDetalle.tsx:62-68 | activo, inactivo and finalizado get their own config. Any other text falls back to the activo config. |
| ObraDetalleView.StatusBadge | src/components/obras/ObraDetalle.tsx:59-75 | There is no badge iff there is no obra. |
| ObraDetalleView.StatusBadgeLabels | src/components/obras/ObraDetalle.tsx:62-68 | Each estado of a loaded obra shows its own label. |
| ObraDetalleView.Title | src/components/obras/ObraDetalle.tsx:37-43 | "Obra: " followed by the nombre when an obra is loaded, else "Detalle de Obra". |
| ObraDetalleView.Screen | src/components/obras/ObraDetalle.tsx:77-172 | Precedence: loading, then error, then not found, each with its message, then the detail with its badge. Actions show iff the user is a coordinator, and the modal flags pass through. |
| ObraDetalleView.ActionsOnlyForCoordinador | src/components/obras/ObraDetalle.tsx:95-112 | Shown edit and delete buttons imply a coordinator session. |
| ObraDetalleView.ObraDetalleController.constructor | src/components/obras/ObraDetalle.tsx:17-34 | Keeps the route id, fixes `obraId` as the parse of it, and keeps the role. Both modals start closed, with nothing deleted or navigated. |
| ObraDetalleView.ObraDetalleController.OpenEdit | src/components/obras/ObraDetalle.tsx:98 | Opens the edit form and changes nothing else. |
| ObraDetalleView.ObraDetalleController.CloseEdit | src/components/obras/ObraDetalle.tsx:155 | Closes the edit form and changes nothing else. |
| ObraDetalleView.ObraDetalleController.OpenDelete | src/components/obras/ObraDetalle.tsx:105 | Opens the delete dialog and changes nothing else. |
| ObraDetalleView.ObraDetalleController.CancelDelete | src/components/obras/ObraDetalle.tsx:169 | Closes the delete dialog and changes nothing else. |
| ObraDetalleView.ObraDetalleController.HandleDeleteObra | src/components/obras/ObraDetalle.tsx:46-56 | With no id, nothing happens. Otherwise it deletes the obra the page shows (`obraId`). On success the dialog closes and the page goes to /obras; on failure the dialog and the route are unchanged. |
| AreaTab.Screen | src/components/areas/AreaTabContent.tsx:44-71 | A truthy error renders only the error panel with its details. Otherwise the list is shown, with the form iff it is open, editing the current area, busy while submitting. |
| AreaTab.ErrorHidesForm | src/components/areas/AreaTabContent.tsx:44-71 | While the error is truthy no list and no form are shown, whatever the state. |
| AreaTab.SubmitCall | src/components/areas/AreaTabContent.tsx:93-103 | While editing, only the update callback is called, with `id_area` taken from the edited area. Otherwise only the create callback is called, with the form data. An absent callback means no call. |
| AreaTab.UpdateKeepsEditedId | src/components/areas/AreaTabContent.tsx:96 | The update carries every form field (obra, nombre, descripcion, supervisor) and the edited area's id. |
| AreaTab.Submitted | src/components/areas/AreaTabContent.tsx:90-110 | The call is logged, the search term is unchanged, and `isSubmitting` ends false. |
| AreaTab.SubmitClosesForm | src/components/areas/AreaTabContent.tsx:104 | After a callback that returns, true or false, the modal is closed and `editingArea` is cleared (through `handleCloseModal`, line 86). The tab shows the list with no form and not busy. |
| AreaTab.SubmitThrowKeepsForm | src/components/areas/AreaTabContent.tsx:105-106 | When the called callback throws, the modal and the edited area are unchanged. |
| AreaTab.SubmitWithoutCallbackCloses | src/components/areas/AreaTabContent.tsx:93-104 | With no callback to reach, the form closes, the edited area is cleared and nothing is called. |
| AreaTab.AreaTabController.constructor | src/components/areas/AreaTabContent.tsx:36-39 | Empty search, form closed, no edited area, not submitting, no calls. |
| AreaTab.AreaTabController.SetSearchTerm | src/components/areas/AreaTabContent.tsx:147 | Replaces the search term only. |
| AreaTab.AreaTabController.HandleOpenModal | src/components/areas/AreaTabContent.tsx:80-83 | `editingArea` becomes the given area, or none, and the modal opens. Nothing else changes. The component hands this handler to no element (see `FormNeverOpens`). |
| AreaTab.FormNeverOpens | src/components/areas/AreaTabContent.tsx:135-161 | From a closed form, no sequence of the events the tab wires (search, and the form's close and submit while it is shown) opens the form, and the tab's own submit logs no call. |
| AreaTab.CloseForm | src/components/areas/AreaTabContent.tsx:85-88 | The modal is closed and no area is being edited. The search term, the busy flag and the call log are unchanged. |
| AreaTab.AreaTabController.HandleCloseModal | src/components/areas/AreaTabContent.tsx:85-88 | The new state is `CloseForm` of the old one: `editingArea` cleared, the modal closed, nothing else changed. `TabStep` and `Submitted` close the form through the same function. |
| AreaTab.AreaTabController.HandleSubmit | src/components/areas/AreaTabContent.tsx:90-110 | The new state is `Submitted` of the old one. |

## Left out

- Rendering: JSX, CSS classes, icons and the static texts. What is displayed is reduced to the `...Screen` datatypes, the badge captions and the messages the properties mention.
- Routing in `src/App.tsx`. react-router does the path matching, so a route parameter is an input of the model.
- `src/components/camaras/CamaraCard.tsx`. It is presentational, with a menu toggle. It compares `estado === 'activa'` (line 59), while the type allows only 'activo' and 'inactivo' (entities.ts:54).
- The hooks, contexts and services behind the pages. These are `useStreamController` (start, stop, `getStreamUrl`), `useObra`, `useArea`, `obraUsuarioService`, `CamarasContext` and `ReportsContext`. Their code is not part of this model: their results are parameters, and the calls made to them are logged.
- The refresh effect of AreaTabContent.tsx:73-78. It is a hook called after an early return, and it calls context functions that are not part of this model.
- React's effect lifecycle, render scheduling and the interleaving of concurrent awaits. Each handler is one atomic step, given the outcomes of its calls.
- The obras page's title effects (ObrasPage.tsx:24-27), and the stream controller's `stop` on unmount.
- Fetching of the stream media itself, and `navigate(-1)` (browser history).
- `console.error` logging, and `formatDate` with the description/date fallbacks of ObraDetalle.tsx:122-131.
- The form components (`ObrasHeader`, `ObraForm`, `AreaForm`, `AreaList`, `ConfirmDialog`). They are outside this model; only their callbacks are modelled.
- `src/types/entities.ts:14-29` (the registration and login payloads). No modelled component uses them.
- Stream descriptors other than `id_camara`. The stream URL is not modelled.
- JsText.ToLower: lowercases only ASCII and Latin-1 capitals (the letters of Spanish text). It does not model the full Unicode case mapping of `toLowerCase`.
- JsNumbers.JsNumber: JavaScript numbers are IEEE doubles, and the model uses unbounded integers. Beyond 2^53 the page's `parseInt` and `Number` round, and `${n}` switches to exponent notation from 10^21. This changes nothing for the small integer ids the pages parse, but the round-trip lemmas below hold only in the model.
- JsNumbers.IntToString: it writes every integer in plain decimal digits. It does not model exponent notation from 10^21.
- JsNumbers.ParseIntOfIntToString: it holds for every integer in the model. In JavaScript it holds only up to 2^53 in magnitude.
- JsNumbers.StringToNumberOfIntToString: it holds for every integer in the model. In JavaScript it holds only up to 2^53 in magnitude.
- ObraDetalleView.ObraIdOfDecimal: it holds for every integer in the model. In JavaScript it holds only up to 2^53 in magnitude.
- Monitoreo.StartsDecimalArea: it holds for every integer in the model. In JavaScript it holds only up to 2^53 in magnitude.
- AreaDetalles.Screen: its supervisor is the corrected lookup `SupervisorOf`, by the `id_supervisor` that `Area` declares. The page as written reads `area.id_usuario` (AreaDetallesPage.tsx:149-151), modelled by `SupervisorAsWritten`. For an area of the declared shape that field is absent, and the page shows no supervisor (see Findings).
- ObraDetalleView.ObraDetalleController.HandleDeleteObra: it deletes `obraId`, the `parseInt(id, 10)` the page shows. The code deletes `parseInt(id)` (ObraDetalle.tsx:50), modelled by `DeleteTargetAsWritten`. The two agree on decimal ids (`DeleteTargetAgreesOnDecimal`) and differ on hex ones (see Findings).
- `AreaList`'s own calls of the parent's `onCreateArea`, `onUpdateArea` and `onDeleteArea`, which the areas tab passes straight through (AreaTabContent.tsx:142-144). `AreaList` is outside this model, so the tab's `calls` log only what its own `handleSubmit` calls.
- JsNumbers.StringToNumber: it has no own contract; its properties are in `StringToNumberOfIntToString` and `ToNumber`. It maps `Number`'s fraction, exponent and `Infinity` forms to NaN, since route ids are integers.
- Monitoreo.StreamBoard.OnLoad, OnError and Retry: they do not require their element to be rendered. Which events can happen is captured by `Monitoreo.Step` and `Monitoreo.Run`, where the reachability lemmas are proved.
- ObrasList.Screen: the page's error is a string in the model. The fallback `'Error al cargar las obras'` at ObrasPage.tsx:41 can never show, because it is reached only when `error` is truthy.
- ObraDetalleView.BadgeForEstado: `statusConfig[estado]` for keys inherited from `Object.prototype` (such as "constructor") is not modelled, because the estado is one of three strings by type.

## Findings

| source | as written | input that shows it | evidently intended | confidence | as-written member | corrected member |
|---|---|---|---|---|---|---|
| src/components/areas/AreaDetallesPage.tsx:149-150 | The supervisor is looked up through `area.id_usuario`, a property `Area` does not declare. `Area` holds the reference as `id_supervisor` (src/types/entities.ts:46). | Area 1 of obra 5, with `id_supervisor` 7 and no `id_usuario`, and supervisor 7 in the fetched list: no supervisor is shown. | Look up the supervisor whose `id_usuario` equals the area's `id_supervisor`. | not executed; medium (the server may also send `id_usuario`) | AreaDetalles.SupervisorMissedAsWritten | AreaDetalles.SupervisorOf |
| src/components/obras/ObraDetalle.tsx:50 | The delete parses the route id with `parseInt(id)`, which reads a `0x` prefix as hex. The shown obra comes from `parseInt(id, 10)` (line 18). | Route `/obras/0x10` while an obra with id 0 exists: the page shows obra 0, and confirming would delete obra 16. Without an obra 0 the page shows "No se encontró la obra especificada" (lines 77-79), and no delete dialog is rendered. | Delete the obra the page shows, `obraId`. | not executed; medium (it needs a hand-typed hex route and an obra with id 0) | ObraDetalleView.DeleteTargetDiffersOnHex | ObraDetalleView.ObraDetalleController.HandleDeleteObra |
