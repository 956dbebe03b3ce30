# Game sales sheets, modelled in Dafny

This project models the logic of a small sales tracker for a game shop. An owner
("propriétaire") keeps a catalogue of games with default prices and manages the
accounts of managers ("gérants"). Whoever is signed in records sales on the
daily sheet of today's date. The history lists every sheet, newest date first.
The dashboard compares today with yesterday, shows revenue per game and plots
the last seven days. A sheet can be exported as CSV.

The model covers the following parts:

- the records (`SalesTypes`);
- the array builtins the components rely on (`Lists`);
- the string and number builtins they rely on (`JsText`);
- the session helpers over the browser's key-value store (`Auth`);
- the authentication context (`AuthContext`);
- the route gate (`ProtectedRoute`);
- the login form (`LoginView`);
- the sales page with its CSV export (`SalesPage`);
- the add-sale form and today's table (`SalesView`);
- the history (`HistoryView`);
- the dashboard figures (`Dashboard`);
- the settings page and form (`SettingsPage`, `SettingsView`).

State that a component changes in place is modelled as a `class` whose methods
state the component's whole new state:

- React state;
- the store's `currentUser` entry.

Pure computations are modelled as functions, with lemmas relating them, for example:

- the CSV export splits back into its lines;
- per-game revenues add up to the day's total;
- the history order is newest first and a permutation;
- the route gate and the settings page agree.

Things the browser or the server decides are parameters of the operations:

- whether a remote call succeeded;
- the id the store assigns;
- today's date;
- the time of a sale.

Amounts are integers in one fixed unit. Dates are day numbers.

## Model

| member | source | states |
|---|---|---|
| SalesTypes.SumPricesAppend | src/pages/Sales.tsx:133 | the sum of prices of two concatenated lists of sales is the sum of their sums |
| SalesTypes.SheetFor | src/pages/Sales.tsx:40 | `find` on the date: None exactly when no sheet has that date, otherwise the first sheet that does |
| SalesTypes.SheetIndex | src/pages/Sales.tsx:88 | the index of the first sheet with the date, every earlier sheet has another date |
| SalesTypes.GameById | src/pages/Sales.tsx:74 | `find` on the id: None exactly when no game has the id; otherwise the first game of the catalogue that has it |
| Lists.FindIndex | src/components/SalesView.tsx:23 | the first index whose element passes the test, none before it passes |
| Lists.Find | src/components/SalesView.tsx:23 | None exactly when no element passes; otherwise the element at the first passing index |
| Lists.Filter | src/pages/Settings.tsx:93 | the result is no longer than the input and every kept element passes the test |
| Lists.FilterMembers | src/pages/Settings.tsx:93 | the kept elements come from the input and every passing input element is kept |
| Lists.FilterAppend | src/pages/Settings.tsx:93 | filtering commutes with concatenation, so the kept elements keep their order |
| Lists.FilterKeepsAll | src/pages/Settings.tsx:142 | filtering a list whose elements all pass changes nothing |
| Lists.FilterDropsOne | src/pages/Settings.tsx:93 | with one failing element, the result is the input with that element cut out |
| Lists.Replace | src/pages/Settings.tsx:79 | the map keeps the length and puts the replacement exactly where the test matches |
| Lists.ReplaceSingle | src/pages/Settings.tsx:79 | with one matching element, replacing is a point update of that index |
| JsText.LeadingBlanks | src/components/SettingsView.tsx:54 | the whitespace run at the start is maximal |
| JsText.TrailingBlanks | src/components/SettingsView.tsx:54 | the whitespace run at the end is maximal and stays after the start |
| JsText.TrimStart | src/components/SalesView.tsx:35 | the result is a suffix with no leading whitespace, and only whitespace was dropped |
| JsText.Trim | src/components/SettingsView.tsx:54 | the result has no whitespace at either end, is empty exactly for blank text, and is the text between the two runs |
| JsText.Join | src/pages/Sales.tsx:129-134 | joining one part gives that part, and the text always starts with the first part; SplitJoin is its inverse |
| JsText.SplitJoin | src/pages/Sales.tsx:134 | splitting text joined on a character gives back the parts when no part holds it |
| JsText.ShowNat | src/components/SettingsView.tsx:74 | the numeral is non-empty and made of digits |
| JsText.ShowNatValue | src/components/SettingsView.tsx:74 | the numeral's digits read back as the number |
| JsText.DigitPrefix | src/components/SettingsView.tsx:59 | the longest prefix of digits |
| JsText.ShowNumber | src/components/SettingsView.tsx:74 | the numeral is non-empty and starts with "-" exactly for a negative number; ParseShowNumber reads it back |
| JsText.ParseFixed2 | src/pages/Sales.tsx:131-133 | parseFloat of a price cell written with toFixed(2) gives back the non-negative price |
| JsText.DigitPrefixStopsAtDot | src/pages/Sales.tsx:131 | the digit run of a numeral ends at the non-digit that follows it |
| SalesPage.ShowNumberHasNo | src/pages/Sales.tsx:131-133 | a price cell holds no character other than a sign, digits and the point, so no comma and no newline |
| JsText.ParseNumber | src/components/SettingsView.tsx:59 | after the leading whitespace, a number exactly when a digit follows, possibly after one sign; a negative value needs a "-" |
| JsText.ParseShowNumber | src/components/SettingsView.tsx:74-83 | parseFloat of the toString of a non-negative integer gives the integer back |
| JsText.BlankIsNaN | src/components/SettingsView.tsx:59-60 | parseFloat of empty or all-whitespace text is NaN |
| JsText.NumeralHasNoLeadingBlank | src/components/SettingsView.tsx:59 | text starting with a digit has nothing for trimStart to drop |
| Auth.LocalStorage.constructor | src/lib/auth.ts:21 | the store starts with the given entries |
| Auth.LocalStorage.SetItem | src/lib/auth.ts:21 | setItem writes that key and no other |
| Auth.LocalStorage.RemoveItem | src/lib/auth.ts:34 | removeItem drops that key and no other |
| Auth.CredentialIndex | src/lib/auth.ts:17 | the first user whose username and password both match, none before it matches |
| Auth.FindUser | src/lib/auth.ts:17 | None exactly when nobody matches both fields; otherwise the first match |
| Auth.Login | src/lib/auth.ts:11-30 | a failed request signs nobody in; otherwise the result is the match, which is stored and read back; a miss leaves the store as it was |
| Auth.Logout | src/lib/auth.ts:33-35 | the entry is removed, nothing else changes, and nobody is signed in |
| Auth.GetCurrentUser | src/lib/auth.ts:38-48 | a user exactly when the entry exists and holds a user record, and that record |
| Auth.IsAuthenticated | src/lib/auth.ts:51-53 | true exactly when the entry holds a user record |
| Auth.HasRole | src/lib/auth.ts:56-59 | true exactly when the stored user has that role, which implies being signed in |
| Auth.IsProprietaire | src/lib/auth.ts:62-64 | true exactly when the current user is the owner |
| Auth.IsGerant | src/lib/auth.ts:67-69 | true exactly when the current user is a manager |
| Auth.RolesExclusive | src/lib/auth.ts:56-69 | nobody is both owner and manager, and a signed-out visitor is neither |
| AuthContext.InitialUser | src/contexts/AuthContext.tsx:29-33 | the initializer crashes exactly on non-empty text that is not a user; otherwise it yields what getCurrentUser reads |
| AuthContext.FlagsOf | src/contexts/AuthContext.tsx:62-64 | signed in exactly with a user, the two role flags exclusive and equal to the user's role |
| AuthContext.Persisted | src/contexts/AuthContext.tsx:35-42 | after the effect the entry mirrors the user and every other key is unchanged |
| AuthContext.FlagsAgreeWithStorage | src/contexts/AuthContext.tsx:62-64 | while the store mirrors the state, the context's flags equal the session helpers' answers |
| AuthContext.AuthProvider.constructor | src/contexts/AuthContext.tsx:29-42 | mount: the initializer's user, then the store written by the effect |
| AuthContext.AuthProvider.Persist | src/contexts/AuthContext.tsx:35-42 | the store becomes the persisted form of the user state |
| AuthContext.AuthProvider.Login | src/contexts/AuthContext.tsx:44-56 | success exactly when the request succeeded and matched; then the match is the user and is stored; otherwise nothing changes |
| AuthContext.AuthProvider.Logout | src/contexts/AuthContext.tsx:58-60 | no user, the entry removed, signed out |
| ProtectedRoute.Decide | src/components/ProtectedRoute.tsx:12-41 | redirect exactly when signed out; access denied exactly when signed in without an allowed role; children otherwise |
| ProtectedRoute.SignedOutGoesToLogin | src/components/ProtectedRoute.tsx:15-22 | without a redirectTo a signed-out visitor goes to /login |
| ProtectedRoute.OneRoleIsList | src/components/ProtectedRoute.tsx:26 | one role gates exactly like the one-element list |
| ProtectedRoute.EmptyListDeniesAll | src/components/ProtectedRoute.tsx:25-27 | the empty role list turns every signed-in visitor away |
| LoginView.MessageFor | src/components/LoginView.tsx:30-39 | welcome exactly on a true result, wrong credentials exactly on false, connection error exactly when the call throws |
| LoginView.LoginForm.constructor | src/components/LoginView.tsx:16-18 | empty fields, not loading |
| LoginView.LoginForm.HandleLogin | src/components/LoginView.tsx:20-43 | an empty field stops before the call; otherwise one call and the matching message; loading ends false; one success navigation exactly on success |
| SalesPage.TodaySheetOf | src/pages/Sales.tsx:67-71 | the sheet that is shown is dated today: the first sheet dated today, or an empty one |
| SalesPage.ReplaceSheet | src/pages/Sales.tsx:100 | the map keeps the length and puts the new sheet exactly where the id matches |
| SalesPage.ReplaceFoundSheet | src/pages/Sales.tsx:91-101 | after writing a sheet for d over the found one, looking d up finds the new sheet |
| SalesPage.ReplaceInWellFormed | src/pages/Sales.tsx:91-101 | with one sheet per date, the write-back is a point update and keeps one sheet per date |
| SalesPage.AppendSaleToSheet | src/pages/Sales.tsx:91-106 | the sale is appended to the found sheet, the sheet is found again, and the total grows by the price |
| SalesPage.AppendSheetWithSale | src/pages/Sales.tsx:107-118 | with no sheet dated d, a new sheet holding the one sale is appended and is what looking d up finds |
| SalesPage.SaleRow | src/pages/Sales.tsx:130-132 | the row is the name, the two-decimal price and the time, comma-separated |
| SalesPage.TotalRow | src/pages/Sales.tsx:133 | the last row is an empty cell, "Total" and the two-decimal sum of prices |
| SalesPage.SaleRows | src/pages/Sales.tsx:130-132 | one row per sale, in sheet order |
| SalesPage.CsvLinesShape | src/pages/Sales.tsx:127-134 | the lines are the header, one row per sale in order, then the total row |
| SalesPage.CsvLinesHaveNoNewline | src/pages/Sales.tsx:127-134 | when no name and no time holds a newline, no line does |
| SalesPage.CsvLines | src/pages/Sales.tsx:128-134 | n + 2 lines for n sales, the header first and the total row last; CsvLinesShape gives the rows between |
| SalesPage.ExportCsv | src/pages/Sales.tsx:128-134 | the text starts with the header; ExportLines splits it back into the lines |
| SalesPage.ExportLines | src/pages/Sales.tsx:127-134 | the exported text splits on newlines back into exactly those lines |
| SalesPage.SaleRowCells | src/pages/Sales.tsx:131 | a sale row splits back into name, price and time when neither name nor time holds a comma |
| SalesPage.ExportOneSale | src/pages/Sales.tsx:127-134 | the exported text of a sheet holding one sale, written out in full |
| SalesPage.SalesPage.constructor | src/pages/Sales.tsx:13-24 | the state holds the given catalogue, sheets, flags and date, as once the load has settled |
| SalesPage.SalesPage.EnsureTodaySheet | src/pages/Sales.tsx:36-61 | nothing happens while loading, while signed out or when today has a sheet; otherwise an empty sheet for today is sent and appended on success; one sheet per date is kept |
| SalesPage.SalesPage.AddSale | src/pages/Sales.tsx:73-125 | an unknown game is refused; otherwise the sale carries the game's name and the given price; added exactly when the write succeeds; it goes on today's sheet or a new one; the all-time total grows by the price; one sheet per date is kept |
| SalesView.CheckSale | src/components/SalesView.tsx:29-39 | refused exactly when a field is empty, or when the price does not parse to a positive number; otherwise the game and the parsed price |
| SalesView.SelectThenAdd | src/components/SalesView.tsx:21-41 | picking a game with a positive default price and adding at once is accepted with that game and price |
| SalesView.SaleForm.constructor | src/components/SalesView.tsx:18-19 | both fields empty |
| SalesView.SaleForm.HandleGameSelect | src/components/SalesView.tsx:21-27 | the selection changes; the price takes the game's default when the game is found and stays otherwise |
| SalesView.SaleForm.HandleAddSale | src/components/SalesView.tsx:29-45 | on accepted fields one call with the checked values and both fields cleared; otherwise the error and nothing changes |
| SalesView.PrefixSums | src/components/SalesView.tsx:121-124 | each prefix sum is the previous one plus the next price |
| SalesView.SalesRows | src/components/SalesView.tsx:121-134 | one row per sale numbered from 1; the running total starts at the first price, adds each price and ends at the day's total |
| HistoryView.Insert | src/components/HistoryView.tsx:12 | inserting into a newest-first list keeps it newest first and adds exactly that sheet |
| HistoryView.SortNewestFirst | src/components/HistoryView.tsx:12 | the sorted list is newest first and a permutation of the sheets |
| HistoryView.NewestFirstPairwise | src/components/HistoryView.tsx:12 | in a newest-first list every earlier sheet is dated no earlier than every later one |
| HistoryView.SortedPairwise | src/components/HistoryView.tsx:12 | the sorted order holds for every pair, not only neighbours |
| HistoryView.LatestFirst | src/components/HistoryView.tsx:27 | the opened tab has the latest date of all, and it is one of the sheets' dates |
| HistoryView.PanelOf | src/components/HistoryView.tsx:44-77 | a tab shows its date, its count and total, and one row per sale in order |
| HistoryView.Screen | src/components/HistoryView.tsx:21-45 | the empty state exactly when there are no sheets; otherwise one tab per sorted sheet, the first one opened |
| Dashboard.DayTotal | src/components/DashboardView.tsx:15-21 | the `|| 0` fallback: no sheet for the date, no revenue; DayFiguresOfFirstSheet gives the first sheet's sum otherwise |
| Dashboard.DayCount | src/components/DashboardView.tsx:24-25 | no sheet for the date, no sales; DayFiguresOfFirstSheet gives the first sheet's count otherwise |
| Dashboard.DayFiguresOfFirstSheet | src/components/DashboardView.tsx:15-25 | a date without a sheet has revenue and count 0; otherwise the first sheet's sum and count |
| Dashboard.AllTimeTotal | src/components/DashboardView.tsx:22 | one sheet's all-time total is its own revenue; AllTimeTotalIsSumOfAllSales gives the general case |
| Dashboard.AllTimeTotalIsSumOfAllSales | src/components/DashboardView.tsx:22 | the all-time total is the sum over every sale of every sheet |
| Dashboard.AllTimeTotalUpdate | src/components/DashboardView.tsx:22 | replacing one sheet changes the all-time total by the difference of the two sheet totals |
| Dashboard.TrendOf | src/components/DashboardView.tsx:72 | up exactly when today is at least yesterday; TrendAgreesWithChange ties it to the change |
| Dashboard.Change | src/components/DashboardView.tsx:27-28 | 0 when yesterday has no revenue; otherwise the percentage change relative to yesterday |
| Dashboard.TrendAgreesWithChange | src/components/DashboardView.tsx:72 | the trend arrow points up exactly when the computed change is non-negative |
| Dashboard.MetricsOf | src/components/DashboardView.tsx:15-28 | the cards hold today's and yesterday's figures, the all-time total as the sum over every sale, the sheet count, both changes as Change of the two days, 0 whenever yesterday has no revenue or no sale (an empty sheet included), and trends that follow the comparison |
| Dashboard.DatesMembers | src/components/DashboardView.tsx:99 | a date is among the dates exactly when some sheet carries it |
| Dashboard.DistinctDates | src/components/DashboardView.tsx:99 | sheets with pairwise different dates have as many dates as sheets |
| Dashboard.NewDateGrowsDates | src/components/DashboardView.tsx:99 | a last sheet with a new date adds one date |
| Dashboard.ActiveDaysCountsDates | src/components/DashboardView.tsx:99 | with one sheet per date, the active-days card counts the distinct dates |
| Dashboard.Names | src/components/DashboardView.tsx:31-36 | the distinct names, each once, exactly those of the sales |
| Dashboard.NameSetIsNames | src/components/DashboardView.tsx:31-36 | the object's keys are exactly the names of the chart entries |
| Dashboard.PieAddsUpToDayTotal | src/components/DashboardView.tsx:20-39 | the chart's names are the object's keys and their revenues add up to today's revenue; with no sheet for today, that revenue is 0 |
| Dashboard.RevenueOfAbsentName | src/components/DashboardView.tsx:31-34 | a name no sale carries has no revenue |
| Dashboard.SumRevenuesStep | src/components/DashboardView.tsx:31-34 | one more sale adds its price over distinct names when its name is among them, and nothing otherwise |
| Dashboard.RevenuesStep | src/components/DashboardView.tsx:31-34 | one more sale raises the sum of per-name revenues by its price |
| Dashboard.RevenuesSumToTotal | src/components/DashboardView.tsx:31-36 | the per-game revenues of a day add up to the day's total |
| Dashboard.NameSetStep | src/components/DashboardView.tsx:31-34 | one more sale adds its name to the set of names |
| Dashboard.RevenueStep | src/components/DashboardView.tsx:31-34 | one more sale adds its price to its own name's revenue only |
| Dashboard.SalesByGame | src/components/DashboardView.tsx:31-34 | empty without today's sheet; otherwise keyed by exactly the recorded names, each mapped to its revenue |
| Dashboard.Last7Days | src/components/DashboardView.tsx:42-56 | seven points, oldest first, ending today, each with the revenue and count of the first sheet of that day, 0 for a day without a sheet |
| SettingsView.CheckGame | src/components/SettingsView.tsx:53-63 | refused exactly when the trimmed name or the price is empty, or the price does not parse to a positive number; otherwise the trimmed name and the price |
| SettingsView.CheckGerant | src/components/SettingsView.tsx:101-110 | refused exactly when a trimmed field is empty, or the untrimmed password is short; otherwise the three trimmed fields |
| SettingsView.PaddedPasswordPasses | src/components/SettingsView.tsx:107-112 | a three-letter password padded with blanks to six characters passes the check and is passed on trimmed |
| SettingsView.TrimPadded | src/components/SettingsView.tsx:112 | trimming drops the blanks on both sides |
| SettingsView.TrimLetter | src/components/SettingsView.tsx:112 | a single non-blank character is left as it is |
| SettingsView.EditThenSave | src/components/SettingsView.tsx:71-89 | opening the editor on a valid game and saving at once is accepted with the same name and price |
| SettingsView.SettingsForm.constructor | src/components/SettingsView.tsx:42-51 | every field is empty and no editor is open |
| SettingsView.SettingsForm.HandleAddGame | src/components/SettingsView.tsx:53-69 | on accepted fields one call with the checked draft and both fields cleared; otherwise the error and nothing changes |
| SettingsView.SettingsForm.HandleStartEdit | src/components/SettingsView.tsx:71-75 | the editor opens on that game's id, name and price text |
| SettingsView.SettingsForm.HandleSaveEdit | src/components/SettingsView.tsx:77-92 | on accepted fields one call with the id and draft and the editor closed; otherwise the error and the editor stays open |
| SettingsView.SettingsForm.HandleCancelEdit | src/components/SettingsView.tsx:212 | the editor closes |
| SettingsView.SettingsForm.HandleAddGerant | src/components/SettingsView.tsx:101-117 | on accepted fields one call with the trimmed values and the three fields cleared; otherwise the error and nothing changes |
| SettingsPage.GateOf | src/pages/Settings.tsx:40-58 | sent to /login exactly when signed out, shown "owners only" exactly when signed in but not the owner, shown the settings otherwise |
| SettingsPage.GateIsOwnerRoute | src/pages/Settings.tsx:40-58 | the page's own gate decides like the route gate for the owner role |
| SettingsPage.WithoutGame | src/pages/Settings.tsx:93 | the games left are catalogue games with another id, and every game with another id is left |
| SettingsPage.DeleteOneGame | src/pages/Settings.tsx:93 | with one game of that id, deleting cuts exactly that game out |
| SettingsPage.ReplaceGame | src/pages/Settings.tsx:79 | the map keeps the length and puts the updated game exactly where the id matches |
| SettingsPage.WithoutUser | src/pages/Settings.tsx:142 | the managers left have another id, and every manager with another id is left |
| SettingsPage.DeleteOneUser | src/pages/Settings.tsx:142 | with one manager of that id, deleting cuts exactly that manager out |
| SettingsPage.UsernameTaken | src/pages/Settings.tsx:120 | true exactly when some account of any role has that username |
| SettingsPage.Settings.constructor | src/pages/Settings.tsx:14-15 | the lists start empty |
| SettingsPage.Settings.Load | src/pages/Settings.tsx:18-37 | signed out nothing happens; signed in, a successful load replaces the catalogue, the sheets and the managers, and a failed one leaves them |
| SettingsPage.Settings.HandleAddGame | src/pages/Settings.tsx:60-72 | on success the game with the store's id is appended; on failure nothing changes |
| SettingsPage.Settings.HandleUpdateGame | src/pages/Settings.tsx:74-86 | on success every game with the id becomes the updated record, which is then found; on failure nothing changes |
| SettingsPage.Settings.HandleDeleteGame | src/pages/Settings.tsx:88-100 | on success the games with the id are gone and no game has it; on failure nothing changes |
| SettingsPage.Settings.HandleDeleteAllSales | src/pages/Settings.tsx:102-114 | on success no sheet is left; the catalogue is untouched |
| SettingsPage.Settings.HandleAddGerant | src/pages/Settings.tsx:116-137 | a failed lookup or a taken username sends nothing; otherwise a manager account is sent and appended with its id on success; nothing changes otherwise |
| SettingsPage.Settings.HandleDeleteGerant | src/pages/Settings.tsx:139-148 | on success the managers with the id are gone; on failure nothing changes |

## Left out

- JsText.ParseNumber: reads integer numerals only, with no fraction, exponent or `Infinity`. Prices are integers in one unit, even though the price inputs allow steps of 0.01.
- JsText.ParseShowNumber: stated for non-negative integers only. Negative prices are refused before they are stored.
- SettingsView.CheckGerant: the password length is counted in characters, not in UTF-16 code units.
- JsText.ShowNumber and JsText.Fixed2: amounts are exact unbounded integers, so both match JavaScript only for integers that a double holds exactly (up to 2^53) and below 1e21. From 1e21 on, `toString` and `toFixed` switch to exponent form, e.g. "1e+21".
- Floating point is not modelled:
  - `toFixed(1)` of the percentage on the dashboard cards;
  - `Math.round` in the charts;
  - `toFixed(2)` is modelled on integers only.
- Date strings, times and time zones are not modelled. Dates are day numbers, so `localeCompare` on ISO dates becomes integer order. The time of a sale and today's date are parameters. The dashboard finds "yesterday" and the seven chart days by parsing today's date string as UTC midnight and then stepping with local `setDate`. In a zone ahead of UTC that changes its clocks, a step across the change can land on the wrong calendar day: in Europe/Paris on 2024-10-28 it finds 2024-10-26. The model's `today - 1` is the evidently intended day.
- Sale ids and the ids the remote store assigns are parameters.
- Remote store: its CRUD calls are modelled by their outcome, which is a parameter. When a call succeeds, the store is taken to echo the record it was sent with the id it assigned. These calls are not part of `src/lib/storage.ts`, which only holds a key-value store version.
- Asynchrony is not modelled: each handler runs to completion. The lost update that two overlapping whole-sheet writes can cause is not modelled.
- Two loading flags are modelled. One is the sales page's flag: SalesPage.SalesPage.EnsureTodaySheet does nothing while it is set. The other is the login form's flag: LoginView.LoginForm.HandleLogin sets it around the call and clears it after. The loading screens of the dashboard, history and settings pages are not modelled. The sales page's load effect is not modelled either: SalesPage.SalesPage is built from already-loaded data, with its loading flag as a parameter. The settings page starts empty and loads through SettingsPage.Settings.Load.
- Toasts, confirm dialogs and navigation are not modelled, apart from which message or path is chosen. This covers the delete confirmations in `src/components/SettingsView.tsx`.
- The CSV download itself (the blob and the anchor) is not modelled; what is modelled is the text.
- Stored text that parses as JSON but is not a user record is not modelled. Only a user record and text that fails to parse are distinguished.
- Dashboard.SalesByGame: maps every name to its revenue, but the view fills a plain `{}` object, so names of `Object.prototype` members behave differently. For `constructor`, `hasOwnProperty`, `isPrototypeOf`, `propertyIsEnumerable`, `toString`, `toLocaleString`, `valueOf`, `__defineGetter__`, `__defineSetter__`, `__lookupGetter__` and `__lookupSetter__`, `salesByGame[name] || 0` reads the inherited function, so the entry becomes a string and its pie value NaN. For `__proto__` the assignment is dropped and no entry appears. The model treats all names alike. Object key order is also not modelled: the view lists integer-like names first, in ascending order.
- Sort stability: sheets with equal dates may come out in either order.
- `onSelectDate` of the history view is not modelled, since it is never called.
- The login query's URL escaping is not modelled.
- Login's catch branch in `src/contexts/AuthContext.tsx` is not modelled: it is unreachable, because `src/lib/auth.ts` catches every error itself.
- `useAuth` outside a provider (`src/contexts/AuthContext.tsx:16-22`) is not modelled.
- The inputs' `onChange` handlers are not modelled: a field's content is its state.
- Rendering details are not modelled: styling, icons and chart drawing.
- These files are not part of this model:
  - `backend/server.js`;
  - `src/lib/config.ts`;
  - the layout and sidebar components;
  - the page wrappers.
- Passwords are compared as stored plain text, as the code does.
- Sheet ids: `src/types/sales.ts` declares a daily sheet without an id, while `src/pages/Sales.tsx` gives each sheet one and matches on it. The model follows the page: a sheet has both an id and a date. The page gives each new sheet its date as id, and SalesTypes.WellFormed requires this of every sheet the proofs about the sales page start from.
