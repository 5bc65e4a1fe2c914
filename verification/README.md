# Music player status machine and spacing scale

This project models the two pieces of the portfolio widget repository that
have behaviour:

- **The play/pause status machine of `MusicPlayer`** (`music_player.dfy`, module
  `MusicPlayer`).
  - The widget holds one status: `paused`, `loading` or `playing`. It starts as `paused`.
  - A click on the main button moves `playing` or `paused` to `loading` at once. The
    click also schedules one follow-up, 500 time units later, which sets the
    opposite status.
  - While `loading`, the handler has no branch and the button is disabled.
  - The behaviour is first given on values: `State`, `OnPlayPause`, `OnTimeout`,
    `Elapse`, and `Run` over a sequence of events. The class `Player` then updates
    `status`, its queue of pending follow-ups and a discrete clock in place, and
    each of its methods is proved against those functions.
  - The icon shown and the disabled flag are pure functions of the status.
- **The numeric spacing generator of the Tailwind configuration** (`spacing.dfy`,
  module `Spacing`).
  - `GenerateNumericSpacing` builds a string-keyed table in place. It writes three
    seeds, then runs a counting loop over 1..20, then a loop over 22 larger sizes.
  - It is proved equal to `NumericSpacing`, the same writes folded over the keys
    in order.
  - Lemmas state what that table holds: exactly 45 keys, each number's key mapped
    to the key followed by `px`, and `px` mapped to `1px`.
- **The spread-merge with the named design-system sizes** (`theme.dfy`, module `Theme`).
  - No named key looks numeric, so the merge keeps every generated entry and adds
    the 17 named ones.

A number used as an object key, or placed in a template string, becomes its
decimal string. `Spacing.NatToString` is that conversion, with its inverse
`ParseDecimal`.

## Model

| member | source | states |
|---|---|---|
| MusicPlayer.Initial | src/components/MusicPlayer.tsx:22 | the widget starts `Paused` with nothing pending, and the invariant holds |
| MusicPlayer.Opposite | src/components/MusicPlayer.tsx:26-31 | the follow-up's target is never `Loading` and differs from the status the click started from |
| MusicPlayer.OnPlayPause | src/components/MusicPlayer.tsx:25-33 | from `Playing`/`Paused`: status `Loading`, exactly one follow-up pending, due in 500, targeting the opposite status; in `Loading` nothing changes; the invariant (loading iff one follow-up pending, never more) is kept |
| MusicPlayer.OnTimeout | src/components/MusicPlayer.tsx:28-31 | the follow-up sets its target; from an invariant state the result is not `Loading`, nothing is pending and the invariant holds |
| MusicPlayer.Elapse | src/components/MusicPlayer.tsx:28-31 | time passing keeps the invariant; the status stays `Loading` exactly while the follow-up is not yet due, then becomes its target with nothing pending; a non-loading status is unchanged |
| MusicPlayer.Step | src/components/MusicPlayer.tsx:25-33 | a click or a wait keeps the invariant |
| MusicPlayer.Run | src/components/MusicPlayer.tsx:25-33 | any sequence of clicks and waits keeps the invariant |
| MusicPlayer.ReachableStatesKeepInvariant | src/components/MusicPlayer.tsx:25-33 | every state reachable from mount has at most one follow-up pending, is `Loading` exactly when one is pending, and no pending follow-up targets `Loading` |
| MusicPlayer.FollowUpAfterDelay | src/components/MusicPlayer.tsx:28-31 | after a click the status is `Loading` for less than 500 units, and from 500 on it is the opposite of the starting status with nothing pending |
| MusicPlayer.WaitsCompose | src/components/MusicPlayer.tsx:28-31 | waiting `a` and then `b` leaves the widget exactly where waiting `a + b` does |
| MusicPlayer.RunWaits | src/components/MusicPlayer.tsx:28-31 | any split of time into waits ends where one wait of the total ends; no wait changes nothing |
| MusicPlayer.FollowUpAfterSplitWaits | src/components/MusicPlayer.tsx:25-33 | after a click, however the time is split, the status is `Loading` while less than 500 has passed in total and the opposite status, with nothing pending, once 500 has |
| MusicPlayer.ToggleTwiceRoundTrip | src/components/MusicPlayer.tsx:25-33 | click, wait 500, click, wait 500 returns a paused or playing widget to its starting status with nothing pending |
| MusicPlayer.ToggleFireRoundTrip | src/components/MusicPlayer.tsx:25-33 | click, follow-up, click, follow-up: the middle status is the opposite one and the final status is the starting one |
| MusicPlayer.IconFor | src/components/MusicPlayer.tsx:238-268 | the loader shows exactly when `Loading`, the pause icon exactly when `Playing`, the play icon exactly when `Paused` |
| MusicPlayer.ButtonDisabled | src/components/MusicPlayer.tsx:227 | the button is disabled exactly when the loader icon shows |
| MusicPlayer.DisabledWhilePending | src/components/MusicPlayer.tsx:227 | the button is disabled exactly when a follow-up is pending and exactly when the loader shows; a click on a disabled button changes nothing, and a click on an enabled one disables it |
| MusicPlayer.IconDeterminesStatus | src/components/MusicPlayer.tsx:238-268 | distinct statuses show distinct icons |
| MusicPlayer.Player.constructor | src/components/MusicPlayer.tsx:22 | the fields hold the initial state |
| MusicPlayer.Player.HandlePlayPause | src/components/MusicPlayer.tsx:25-33 | the fields are updated as `OnPlayPause` says and the invariant is kept |
| MusicPlayer.Player.TimerFires | src/components/MusicPlayer.tsx:28-31 | at its due time the pending follow-up runs as `OnTimeout` says and the invariant is kept |
| MusicPlayer.Player.Advance | src/components/MusicPlayer.tsx:28-31 | the clock moves on and a follow-up that falls due runs, as `Elapse` says; the invariant is kept |
| MusicPlayer.PlayPauseScenario | src/components/MusicPlayer.tsx:22-33 | mount, click, wait 500, click, wait 500 shows paused, loading, playing, loading, paused |
| Spacing.NatToString | tailwind.config.ts:15 | a number's key is a non-empty digit string, starting with `0` only for zero |
| Spacing.ParseNatToString | tailwind.config.ts:15 | reading the decimal key back gives the number |
| Spacing.NatToStringInjective | tailwind.config.ts:14-26 | different numbers are written under different keys |
| Spacing.SeedFacts | tailwind.config.ts:7-11 | the seeds are the three keys `0`, `px`, `0.5`; each but `px` maps to itself followed by `px` |
| Spacing.PositiveKeyNotSeed | tailwind.config.ts:7-16 | the key of a positive number is no seed key |
| Spacing.LargerSizesIncreasing | tailwind.config.ts:19-22 | the larger sizes are strictly increasing and all above 20 |
| Spacing.CountKeysFacts | tailwind.config.ts:14-16 | the counting loop writes 20 distinct digit keys, none a seed, including the key of every number 1..20 |
| Spacing.SizeKeysFacts | tailwind.config.ts:19-26 | the larger sizes give distinct digit keys, none a seed or a key of 1..20, including the key of every size |
| Spacing.WriteAllExtends | tailwind.config.ts:14-26 | writing distinct fresh keys keeps every earlier entry and adds each key mapped to itself followed by `px` |
| Spacing.WriteAllSize | tailwind.config.ts:14-26 | writing distinct fresh keys adds exactly one entry per key |
| Spacing.NumericSpacingShape | tailwind.config.ts:6-29 | the generated table is the seeds, unchanged, plus the keys of 1..20 and of the larger sizes, each mapped to itself followed by `px` |
| Spacing.NumericSpacingSize | tailwind.config.ts:6-29 | the generated table has 3 + 20 + 22 = 45 entries |
| Spacing.NumericSpacingKeys | tailwind.config.ts:6-29 | its keys are exactly the seeds, 1..20 and the larger sizes; `0`, `px`, `0.5` map to `0px`, `1px`, `0.5px` |
| Spacing.NumericSpacingEntries | tailwind.config.ts:14-26 | every i in 1..20 and every larger size maps to its key followed by `px` |
| Spacing.NumericSpacingValues | tailwind.config.ts:4-5 | every key but `px` maps to itself followed by `px`, and every key is `px`, `0.5` or a digit string |
| Spacing.FillSpacing | tailwind.config.ts:14-26 | the two loops write the keys of 1..last in increasing order, then the keys of the sizes in their order, each as key followed by `px` |
| Spacing.GenerateNumericSpacing | tailwind.config.ts:6-29 | the generator returns exactly `NumericSpacing` |
| Theme.NamedKeysNotNumeric | tailwind.config.ts:50-66 | no named size key looks numeric: each ends in a letter and none is `px` |
| Theme.NamedSpacingCount | tailwind.config.ts:50-66 | there are 17 distinct named keys |
| Theme.MergeSpacing | tailwind.config.ts:46-67 | the spread has the keys of both tables and the named values; when every numeric key looks numeric, every numeric entry is kept and the sizes add up |
| Theme.ThemeSpacing | tailwind.config.ts:46-67 | the merged spacing has the 45 numeric keys and the 17 named ones, 62 in all; numeric keys keep their `px` values, `px` stays `1px`, and the named sizes keep their rem values |

## Left out

- The JSX markup, layout and the `motion` variant tables are left out. They are presentation: colours, shadows, spring constants and durations handed to a foreign animation library.
- The equalizer and progress-bar scale factors are left out. They are floats that feed the animation library only.
- React mechanics are not modelled: state batching, re-render timing and the closure's capture of `status`. A click is an event on the current state.
- `setTimeout` is modelled as a queue of pending follow-ups on a discrete clock. Only `Player.Advance` runs a follow-up, at its due time; `Player.TimerFires` is its step that runs one and is not a client event of its own.
- Timers are not cancelled when the widget unmounts: the component has no cleanup, so a follow-up scheduled before unmount still runs; the model has no teardown.
- The `next/image` and `lucide-react` components are foreign; the icons are named by the `Icon` datatype only.
- In the configuration, the `content` globs, `fontFamily` (which spreads an external default theme), the constant `fontSize` table and the `Config` type are left out.
- Spacing.GenerateNumericSpacing: its two loops are in `FillSpacing`, over the seeds, the last small size and the list of larger sizes as parameters, and `GenerateNumericSpacing` calls it with the configuration's constants. The table is built as in the source; only the method boundary is new.
- JavaScript property order is not modelled: tables are Dafny maps, so the order in which keys were first written is not visible.
