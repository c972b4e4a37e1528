# Predikt-Base front end: a Dafny model

Predikt-Base is a Next.js mini-app for prediction battles on Base mainnet.
A challenger stakes ETH on a yes/no prediction, optionally names an
opponent, and the battle runs until its end date. This project models the
logic of four front-end files and proves properties of it:

- **Create battle** (`CreateBattle.dfy`). This covers the form check
  `validateForm` and the `handleSubmit` pipeline. The pipeline runs the
  wallet check, then validation, then the chain switch, then the
  `createBattle` write with its arguments. It also covers the three-step
  wizard: the step predicates and the Continue/Back buttons. The page's
  state is a class. `HandleSubmit` is proved to reach exactly the outcome
  of the pure pipeline `Submit` and to leave the `error` text that belongs
  to it.
- **Home page** (`BattleList.dfy`). This covers the battle status enum and
  how the raw `getAllBattles` entries are normalised. It also covers the
  values a battle card shows (status badge, prize pool, opponent panel),
  the quick stats, and which of the skeleton, error card, grid and empty
  state appear.
- **Leaderboard** (`Leaderboard.dfy`). This covers the integer win rate,
  the rank marks and "Top n" badges, the pairing of addresses with stats
  by index, and the empty state.
- **Opponent picker** (`UserSearch.dfy`). This covers the search gate, the
  mapping of search results with its defaults, and four state changes:
  selecting a user, clearing, focusing the input and toggling the
  following list. They are methods of a class over the component's state
  fields.

`Text.dfy` holds the JavaScript string operations these pages use
(`trim` with ECMAScript's whitespace set, `startsWith`, `includes`,
`slice`, and `length`, which counts UTF-16 code units, so a character
above U+FFFF counts 2) and `formatAddress`. `Wrappers.dfy` holds `Option`.

Some modelling choices:

- **Times.** Times are integers of milliseconds since the epoch. An
  empty `endDate` is `None`.
- **Stakes.** Stakes are wei as `nat`.
- **Status.** A battle's `status` is the decoded `uint8` code, kept
  as-is, because the TypeScript `as BattleStatus` cast converts nothing.
- **Wallet and network outcomes.** The outcomes of the chain switch, the
  contract write, the contract reads and the user search are parameters.
  Each write callback (`onSuccess` / `onError`) is resolved within the
  same call.

Three behaviours of the code worth noting:

- `validateForm` does not check that the stake is positive. Only the
  submit button's `disabled` does (`isStep3Valid`).
- The opponent prefix check reads the untrimmed input, while the
  submitted opponent is the trimmed one. A whitespace-only opponent is
  therefore rejected.
- An error whose message contains "returned no data" does more than hide
  the error card. The grid and the empty state also require that there be
  no error at all, so such an error leaves the battles section empty.

## Model

| member | source | states |
|---|---|---|
| CreateBattle.ValidateForm | app/create-battle/page.tsx:35-47 | None exactly when all five checks pass; otherwise the first failing check, in the order prediction, description, end date present, minimum duration, opponent prefix |
| CreateBattle.ExactlyOneHourIsTooShort | app/create-battle/page.tsx:39-41 | an end date of exactly now + 1 hour is rejected as too short; the bound is strict |
| CreateBattle.HasAccount | app/create-battle/page.tsx:54 | an account needs a connected wallet and a non-empty address; a disconnected wallet or a missing address has none |
| CreateBattle.OpponentCheckIsPrefixOnly | app/create-battle/page.tsx:43-45 | an empty opponent or any input starting with "0x" passes, with its length unchecked; a non-empty whitespace-only opponent is rejected |
| CreateBattle.EndTimeSeconds | app/create-battle/page.tsx:83 | the end time is the whole second in which the end instant falls |
| CreateBattle.OpponentArgument | app/create-battle/page.tsx:85 | the opponent argument is the trimmed input, or the zero address exactly when the input is blank (or trims to the zero address) |
| CreateBattle.Arguments | app/create-battle/page.tsx:83-102 | the call carries the trimmed prediction and description, the end date in whole seconds, the stance, the zero address or the trimmed opponent, the stake as value, chain 8453 and gas 500000 |
| CreateBattle.ErrorText | app/create-battle/page.tsx:51-120 | the error text each outcome leaves: the connect message, the validation message, a text starting "Failed to switch to Base network: ", nothing after a confirmed write; it is empty only when a write was made |
| CreateBattle.Submit | app/create-battle/page.tsx:49-123 | stops at NotConnected iff there is no account; at Invalid iff the form fails validation, with that error; requests a switch iff valid and off Base; fails the switch iff the switch is rejected, keeping the rejection's reason; writes iff valid and on Base or switched, with the arguments built from the form |
| CreateBattle.ValidCallFields | app/create-battle/page.tsx:89-102 | a valid form's write carries the trimmed non-empty prediction and description, the stance, the stake as value, chain 8453 and gas 500000 |
| CreateBattle.ValidEndTime | app/create-battle/page.tsx:83-96 | a valid form's end time is its end date in whole seconds and no earlier than the second of now + 1 hour |
| CreateBattle.ValidOpponent | app/create-battle/page.tsx:85-98 | a valid form sends the zero address for an empty opponent and the trimmed input otherwise, and either way an address starting with "0x" |
| CreateBattle.PrefixedOpponentArgument | app/create-battle/page.tsx:85 | an input that is empty or starts with "0x" is sent as the zero address when empty and trimmed otherwise, and the result starts with "0x" |
| CreateBattle.EnabledSubmitSendsStake | app/create-battle/page.tsx:464-466 | whenever the submit button is enabled, a write carries the form's stake as its value, and that stake is positive |
| CreateBattle.Step1Valid | app/create-battle/page.tsx:139 | a valid step 1 passes the prediction and description checks of the form, and its trimmed texts have at least 5 and 10 characters (10 and 20 UTF-16 code units) |
| CreateBattle.Step1ValidBmp | app/create-battle/page.tsx:139 | for texts without characters above U+FFFF, step 1 is valid iff the trimmed prediction has at least 10 and the trimmed description at least 20 characters |
| CreateBattle.Step3Valid | app/create-battle/page.tsx:141 | step 3 is valid iff the stake is positive and an end date is set, and then the form passes the end-date check |
| CreateBattle.SubmitDisabled | app/create-battle/page.tsx:466 | the submit button is disabled while a write is pending or the chain is switching, and enabled iff neither and step 3 is valid |
| CreateBattle.ContinueStep | app/create-battle/page.tsx:449-457 | Continue advances by exactly one step iff below step 3 and not on an invalid step 1; the step stays in 1..3 |
| CreateBattle.BackStep | app/create-battle/page.tsx:436-440 | Back goes down one step above step 1 and does nothing on step 1; the step stays in 1..3 |
| CreateBattle.Navigate | app/create-battle/page.tsx:436-457 | any sequence of clicks keeps the step within 1..3 |
| CreateBattle.LeavingStepOneNeedsValidStep | app/create-battle/page.tsx:455-457 | starting on step 1, ending on another step requires a Continue click made while step 1 was valid |
| CreateBattle.CreateBattlePage.constructor | app/create-battle/page.tsx:24-33 | the initial state: empty texts, 0.01 ETH stake, no end date, challenger says yes, no opponent, no error, step 1 |
| CreateBattle.CreateBattlePage.HandleSubmit | app/create-battle/page.tsx:49-123 | the run's outcome is Submit on the page's fields; the error text is the one of the step that stopped it (empty on a confirmed write); the switching flag is lowered after any switch and otherwise untouched; the wizard state stays valid |
| CreateBattle.CreateBattlePage.SendCreateBattle | app/create-battle/page.tsx:87-122 | the write carries the form's arguments; a rejected write leaves its message as the error, a throw while preparing leaves its message or "Unknown error", a confirmed write leaves the error as it was |
| CreateBattle.CreateBattlePage.Continue | app/create-battle/page.tsx:449-457 | the new step is ContinueStep of the old one and the current step-1 validity |
| CreateBattle.CreateBattlePage.Back | app/create-battle/page.tsx:436-440 | the new step is BackStep of the old one |
| CreateBattle.CreateBattlePage.SelectOpponent | app/create-battle/page.tsx:129-132 | the opponent address and username become the selected ones; the wizard state stays valid |
| CreateBattle.CreateBattlePage.ClearOpponent | app/create-battle/page.tsx:134-137 | both opponent fields are emptied; the wizard state stays valid |
| Text.TrimEmptyIffBlank | app/create-battle/page.tsx:36-37 | `s.trim()` is empty exactly when `s` is made of whitespace only |
| Text.Trim | app/create-battle/page.tsx:36-37 | `trim` never lengthens its input, and its result neither starts nor ends with whitespace |
| Text.TrimIsInfix | app/create-battle/page.tsx:94-95 | `trim` removes only whitespace: the result is a contiguous part of the input with whitespace-only text on both sides |
| Text.Utf16Length | app/create-battle/page.tsx:139 | the JavaScript length of a string is at least its number of characters and at most twice it |
| Text.Utf16LengthBmp | app/components/FarcasterUserSearch.tsx:98 | a string of characters up to U+FFFF has a JavaScript length equal to its number of characters |
| Text.TrimmedBmpLength | app/create-battle/page.tsx:139 | the trimmed form of such a string has one code unit per character |
| Text.AstralCharIsTwoUnits | app/components/FarcasterUserSearch.tsx:98 | an emoji above U+FFFF has JavaScript length 2 |
| Text.TrimKeepsPrefix | app/create-battle/page.tsx:85 | trimming keeps a non-empty prefix without whitespace, so a "0x" input is still "0x" after `trim` |
| Text.ZeroAddressIsHex | app/create-battle/page.tsx:85 | the zero address is 42 characters long and starts with "0x" |
| Text.FormatAddress | app/page.tsx:128-130 | the label is the first 6 characters, then "...", then the last 4 characters, with the lengths shortened for short strings |
| Text.FormatFullAddress | app/leaderboard/page.tsx:48-50 | a 42-character address becomes a 13-character label keeping characters 0-5 and 38-41 |
| Text.FormatShortAddress | app/page.tsx:128-130 | a 4-character string is shown twice around the dots |
| BattleList.Code | app/page.tsx:16-21 | every status has a code of at most 3 |
| BattleList.StatusOfCode | app/page.tsx:16-21 | exactly the codes 0..3 stand for a status, and each decodes to the status with that code |
| BattleList.CodeRoundTrip | app/page.tsx:16-21 | every status round-trips through its code |
| BattleList.ToBattle | app/page.tsx:60-75 | each of the 11 members of a record is copied into the battle member of the same name |
| BattleList.ToBattleIsFieldCopy | app/page.tsx:60-75 | normalising loses nothing: a record and its battle determine each other |
| BattleList.NormalizeEntries | app/page.tsx:59-79 | the map succeeds iff every entry is a readable record, giving one battle per entry in order |
| BattleList.Battles | app/page.tsx:56-80 | no data, a value that is not a list, or an unreadable entry gives no battles; otherwise one battle per entry in order |
| BattleList.NormalizeRoundTrip | app/page.tsx:56-80 | reading back the records of any list of battles gives exactly that list |
| BattleList.StatusBadge | app/page.tsx:115-126 | a badge exists iff the code is a status, labelled with that status's name |
| BattleList.StatusBadgesDistinct | app/page.tsx:115-126 | distinct statuses get distinct badges |
| BattleList.Card | app/page.tsx:211-279 | the card shows the battle's id, prediction and description and the badge of its status; the prize pool is twice the stake; the opponent is shown iff there is one and the battle is not open, then with the opposite stance; "Open to Join!" iff the battle is open |
| BattleList.Cards | app/page.tsx:208-210 | one card per battle, in order |
| BattleList.HasOpponent | app/page.tsx:212 | a battle counts as without opponent only when its opponent is the zero address, a 42-character "0x" string |
| BattleList.ActiveCount | app/page.tsx:160 | the active count never exceeds the number of battles |
| BattleList.ActiveCountAppend | app/page.tsx:160 | the active count of two lists joined is the sum of their counts |
| BattleList.ActiveCountBounds | app/page.tsx:152-160 | the active count is at most the total; it equals the total iff every battle is active, and is zero iff none is |
| BattleList.PageError | app/page.tsx:83 | there is a page error iff either read failed; the count read's error wins |
| BattleList.ErrorCard | app/page.tsx:199-205 | the error card shows the error iff there is one and it does not contain "returned no data" |
| BattleList.Home | app/page.tsx:152-288 | skeletons iff a read is loading; the quick stats iff there are battles, with the total and the number of battles whose status is Active (never more than the total); the grid of the battles' cards iff not loading, no error and some battles; the empty state iff not loading, no error and no battles |
| BattleList.NoDataErrorShowsNothing | app/page.tsx:199-208 | a "returned no data" error hides the error card, the grid and the empty state |
| BattleList.ZeroDataMessageIsSuppressed | app/page.tsx:198-199 | viem's empty-return message for any function name contains the marker and gets no error card |
| Leaderboard.WinRate | app/leaderboard/page.tsx:43-46 | 0 without battles; otherwise the percentage of wins rounded down; at most 100 when wins do not exceed battles |
| Leaderboard.AllWinsIsHundred | app/leaderboard/page.tsx:43-46 | winning every battle gives a win rate of exactly 100 |
| Leaderboard.WinRateMonotone | app/leaderboard/page.tsx:43-46 | more wins over the same battles never lower the win rate |
| Leaderboard.Mark | app/leaderboard/page.tsx:136 | rank 1 gets the gold medal, rank 2 the silver and rank 3 the bronze, and no other rank gets one; every other rank is shown as its number |
| Leaderboard.TopBadge | app/leaderboard/page.tsx:145-147 | the "Top n" badge exists iff the rank is at most 3 and shows that rank |
| Leaderboard.MakeRow | app/leaderboard/page.tsx:112-147 | the row at an index has rank index + 1, the address and its short form, a medal and a "Top n" badge iff the index is below 3, the given stats and their win rate, at most 100 when wins do not exceed battles |
| Leaderboard.Rows | app/leaderboard/page.tsx:112-115 | one row per address, the i-th built from the i-th address and the i-th stats |
| Leaderboard.RowsInReturnedOrder | app/leaderboard/page.tsx:112-147 | ranks run 1, 2, 3, ... in the contract's order; exactly the first three rows carry a medal and a badge; each row shows its own stats and their win rate |
| Leaderboard.View | app/leaderboard/page.tsx:78-112 | skeletons iff loading; nothing unless the read succeeded; the empty state iff the address list is missing or empty; otherwise the rows, or a render failure when stats are missing for an address |
| UserSearch.EthAddresses | app/components/FarcasterUserSearch.tsx:122-124 | a missing `verified_addresses` or `eth_addresses` gives an empty list; otherwise the list itself |
| UserSearch.MapUser | app/components/FarcasterUserSearch.tsx:117-125 | a mapped user keeps the record's identity and picture and carries its defaulted address list |
| UserSearch.MapUsers | app/components/FarcasterUserSearch.tsx:117-125 | a missing `result` or `users` gives no users; otherwise one mapped user per record, in order |
| UserSearch.ShouldSearch | app/components/FarcasterUserSearch.tsx:98-101 | a query is searched iff it is not blank and its untrimmed JavaScript length is at least 2 UTF-16 code units |
| UserSearch.ShortOrBlankNotSearched | app/components/FarcasterUserSearch.tsx:98-101 | queries shorter than 2 code units and blank queries are never searched |
| UserSearch.SingleBmpCharNotSearched | app/components/FarcasterUserSearch.tsx:98-101 | the empty query and a single character up to U+FFFF are never searched |
| UserSearch.AstralCharSearched | app/components/FarcasterUserSearch.tsx:98-101 | a single emoji above U+FFFF is two code units long and is searched |
| UserSearch.PaddedQuerySearched | app/components/FarcasterUserSearch.tsx:98-101 | any query of 2 or more characters with one non-whitespace character is searched |
| UserSearch.SelectionOf | app/components/FarcasterUserSearch.tsx:145-151 | no selection iff the address list is empty or its first entry is empty; otherwise the first address and the username |
| UserSearch.UnverifiedUserUnselectable | app/components/FarcasterUserSearch.tsx:122-150 | a user whose record lacks its verified addresses cannot be selected |
| UserSearch.SearchedUserSelection | app/components/FarcasterUserSearch.tsx:117-151 | selecting the i-th result of a search picks the first address of the i-th record and its username |
| UserSearch.SearchBox.constructor | app/components/FarcasterUserSearch.tsx:30-36 | the initial state: empty query, no results, no followers, nothing shown, not searching |
| UserSearch.SearchBox.SetQuery | app/components/FarcasterUserSearch.tsx:191 | typing replaces the query |
| UserSearch.SearchBox.SearchUsers | app/components/FarcasterUserSearch.tsx:97-135 | a request is made iff ShouldSearch, with the query and limit 5; a gated query only empties the results; a search ends not searching; a 2xx response shows its mapped users; a thrown request raises the failure toast; a non-2xx response leaves the results as they were |
| UserSearch.SearchBox.HandleSelectUser | app/components/FarcasterUserSearch.tsx:145-155 | the selection is SelectionOf the user; a refusal raises the toast and changes nothing; a selection empties the query and hides the results and the following list, bringing back the following button if there are followers |
| UserSearch.SearchBox.HandleClear | app/components/FarcasterUserSearch.tsx:157-162 | the query and results are emptied and hidden; `onClear` is invoked iff one was passed |
| UserSearch.SearchBox.HandleFocus | app/components/FarcasterUserSearch.tsx:192-194 | focusing shows the results iff there are any, and otherwise leaves the flag as it was |
| UserSearch.SearchBox.ToggleFollowers | app/components/FarcasterUserSearch.tsx:246 | the following button flips whether the list is open |

## Left out

- Wallet and network I/O are not modelled: the wagmi reads and writes, `switchChain`, and the Neynar fetches, including the followers load of the opponent picker. Their outcomes are parameters. The pending and success states of the write (`isPending`, `onSuccess`) become a `WriteOutcome` resolved in the same call.
- Toasts, `console` logging, the one-second redirect after a confirmed write, `router.push` navigation, the mini-app frame setup and the refetch-on-focus effects are not modelled. These are side effects with no state the model keeps. The toast texts of the opponent picker are returned as outputs.
- The search debounce (a 300 ms timer re-run on every keystroke) is not modelled, and neither is a late response overwriting a newer search. `SearchUsers` takes the query directly.
- `encodeURIComponent` of the query, the API key header and the URL are not modelled. The request is modelled as the raw query and the limit.
- Floating point is not modelled: `parseEther` of the typed stake, `parseFloat(stakeAmount) > 0`, the `toFixed(3)` pool text and the 2.5% fee text. The stake is a `nat` of wei, and `isStep3Valid` is modelled as "stake > 0 and an end date".
- Date strings are not modelled. `new Date(endDate)` of a `datetime-local` value is modelled as an integer of milliseconds; strings that do not parse are not modelled. The unused `_isExpired` and the localised end-date text are left out.
- `formatEther` and `Number(bigint)` are not modelled. Prize pools and win rates are exact integers; the precision loss of `Number` on huge values is not modelled.
- The "N battles live" subtitle, the card layout, the styling and the icons are presentation only and are not modelled.
- The response casts (`as string`, `as bigint`) are not modelled. Members are assumed to have their declared types. In the opponent picker absent optional members are modelled; on the home page every readable record has all 11 members, and the other entries are modelled as unreadable.
- Leaderboard.View: reading a missing `stats[index]` is modelled as a `RenderFault` view, and a `result` that cannot be destructured into two arrays is not modelled.
- BattleList.Battles: any exception the `map` throws (a `battlesData` that is not an array, or a null or undefined entry) is caught and gives no battles. The model only distinguishes no data, a non-list value and unreadable entries.
- CreateBattle.Submit: the model assumes that `await switchChain(...)` (app/create-battle/page.tsx:71) settles once the user answers and rejects when the switch is refused, which is what the `try`/`catch` at lines 70-80 expects. wagmi 2's `switchChain` from `useSwitchChain()` returns nothing to await (`switchChainAsync` is the awaitable form), so as written a refused switch would not reach the `catch` and the write would go ahead. The model follows the evident intent.
- CreateBattle.Submit: the `err instanceof Error` test is modelled as an optional message, `None` standing for a thrown non-Error.
- The leaderboard read's argument, the top 20 (`getLeaderboard(20)`), is the contract's concern; the page shows whatever lists come back.
- The profile page, the battle detail and success pages, the connect buttons and the configuration files are not part of this model.
