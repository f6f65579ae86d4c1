# Podcast player playback state machine

A Dafny model of the playback core of a browser podcast player: the state
held by the player context provider (a playlist, the current index and the
flags `isPlaying`, `isLooping` and `isShuffuling`, keeping the program's
spelling), its nine mutators and two derived predicates, and the player
component's end-of-episode rule, seek handler, current-episode lookup,
button-disabling rules and play/pause command.

Three modules:

- `PlaybackModel` (PlaybackModel.dfy): the five state cells as a value
  `State`, one transition function per mutator, the derived predicates
  `HasNext` and `HasPrevious`, the index invariant `Valid`, an `Op`
  alphabet with `Step`/`Run` for arbitrary call sequences, and the laws of
  the mutators.
- `PlayerContexts` (PlayerContexts.dfy): the provider as a class
  `PlaybackState` with the five cells as fields. Every mutator is a method
  whose contract states the whole new state and ties it, through
  `Snapshot()`, to the transition function of `PlaybackModel`, so the laws
  proved there hold of the object.
- `Player` (Player.dfy): the component's pure views of the state
  (`CurrentEpisode`, `ButtonsDisabled`, `MediaCommand`, `PlaybackEffect`),
  the end-of-episode rule `EpisodeEnded`, and a class `Player` holding the
  displayed progress and the media position, with the seek and media-event
  handlers.

`Math.random()` is a parameter: a value of type `Random`, an exact fraction
`num / den` with `num < den`, so `Math.floor(Math.random() * len)` becomes
`(num * len) / den` (`RandomIndex`). Both the nondeterminism of the random
draw and the media element's events are thus inputs of the methods.

The index invariant is `Valid`: the index lies in `[0, |list|)` for a
non-empty list and is 0 for an empty one. It is kept by every call except a
`playList` whose index does not fit its list and a shuffle-mode
`playPrevious` at index 0 (`Safe`, `StepValidIff`, `RunPreservesValid`).

Behaviours of the code worth noting:

- `hasNext` looks only at the index (src/contexts/PlayerContexts.tsx:76),
  so in shuffle mode at the last index the next button is disabled and the
  end of the episode clears the list (`ShuffleStopsAtLastIndex`).
- `playList` stores its index unchecked
  (src/contexts/PlayerContexts.tsx:49-53); `PlayListValidIff` says the
  invariant holds afterwards exactly when the index fits.
- In shuffle mode `playPrevious` always decrements, so at index 0 the index
  becomes -1 and the player shows no episode while the list is kept
  (`ShufflePreviousDecrements`, `EnabledPreviousOutcome`).

## Model

| member | source | states |
|---|---|---|
| `PlaybackModel.RandomIndex` | src/contexts/PlayerContexts.tsx:81 | the shuffle draw lies in `[0, len)` for a non-empty list and is 0 for an empty one |
| `PlaybackModel.InitialIsValid` | src/contexts/PlayerContexts.tsx:37-41 | the initial state (empty list, index 0, not playing) satisfies the index invariant and has no next episode |
| `PlaybackModel.PlayResult` | src/contexts/PlayerContexts.tsx:43-47 | `play(e)` leaves the list `[e]`, index 0, playing, loop and shuffle flags unchanged; e is the current episode and there is no next |
| `PlaybackModel.PlayListValidIff` | src/contexts/PlayerContexts.tsx:49-53 | `playList(list, i)` stores list and i and starts playing, nothing else changes; the invariant holds afterwards iff i fits the list |
| `PlaybackModel.TogglesAreInvolutions` | src/contexts/PlayerContexts.tsx:55-65 | each toggle negates only its own flag, leaves list and index alone, and applied twice restores the state |
| `PlaybackModel.SetPlayingStateIdempotent` | src/contexts/PlayerContexts.tsx:67-69 | `setPlayingState(b)` makes the flag b, changes nothing else, and is idempotent |
| `PlaybackModel.ClearResets` | src/contexts/PlayerContexts.tsx:71-74 | clearing always gives an empty list and index 0, keeps the three flags, restores the invariant and is idempotent |
| `PlaybackModel.NeighbourPredicates` | src/contexts/PlayerContexts.tsx:76-77 | `hasNext` does not depend on the shuffle flag; `hasPrevious` holds in shuffle mode; a valid singleton list without shuffle has neither |
| `PlaybackModel.SequentialNext` | src/contexts/PlayerContexts.tsx:84-86 | without shuffle, `playNext` increments the index exactly when `hasNext` holds, is otherwise a no-op, and ignores the random value |
| `PlaybackModel.ShuffleNextInRange` | src/contexts/PlayerContexts.tsx:80-83 | in shuffle mode `playNext` changes only the index, to some index below the list length for a non-empty list and to 0 for an empty one |
| `PlaybackModel.ShuffleNextReachesEvery` | src/contexts/PlayerContexts.tsx:81 | in shuffle mode every index of the list, the current one included, is drawn by some value of `Math.random()` |
| `PlaybackModel.PreviousUndoesNext` | src/contexts/PlayerContexts.tsx:79-93 | without shuffle, `playPrevious` after a `playNext` that advanced restores the state |
| `PlaybackModel.ShufflePreviousDecrements` | src/contexts/PlayerContexts.tsx:89-93 | in shuffle mode `playPrevious` always decrements; at index 0 it gives -1, outside the invariant |
| `PlaybackModel.StepValidIff` | src/contexts/PlayerContexts.tsx:43-93 | from a valid state a call keeps the invariant iff it is not an out-of-range `playList` or a shuffle-mode `playPrevious` at index 0 |
| `PlaybackModel.RunPreservesValid` | src/contexts/PlayerContexts.tsx:43-93 | every sequence of such safe calls from a valid state ends in a valid state |
| `PlaybackModel.SequentialTraversal` | src/contexts/PlayerContexts.tsx:79-87 | without shuffle, n calls of `playNext` from index i reach the smaller of i + n and the last index and change nothing else |
| `PlaybackModel.VisitsInOrder` | src/contexts/PlayerContexts.tsx:79-87 | from index 0 without shuffle the k-th call lands on k, `hasNext` fails only at the last index, and later calls are no-ops |
| `PlayerContexts.PlaybackState.constructor` | src/contexts/PlayerContexts.tsx:37-41 | the provider starts with an empty list, index 0 and all three flags false |
| `PlayerContexts.PlaybackState.Play` | src/contexts/PlayerContexts.tsx:43-47 | list `[e]`, index 0, playing; loop and shuffle unchanged; equal to `PlaybackModel.Play` of the old state |
| `PlayerContexts.PlaybackState.PlayList` | src/contexts/PlayerContexts.tsx:49-53 | list and index as given (unchecked), playing; loop and shuffle unchanged |
| `PlayerContexts.PlaybackState.TogglePlay` | src/contexts/PlayerContexts.tsx:55-57 | negates `isPlaying`; every other cell unchanged |
| `PlayerContexts.PlaybackState.ToggleLoop` | src/contexts/PlayerContexts.tsx:59-61 | negates `isLooping`; every other cell unchanged |
| `PlayerContexts.PlaybackState.ToggleShuffle` | src/contexts/PlayerContexts.tsx:63-65 | negates `isShuffuling`; every other cell unchanged |
| `PlayerContexts.PlaybackState.SetPlayingState` | src/contexts/PlayerContexts.tsx:67-69 | `isPlaying` becomes the argument; every other cell unchanged |
| `PlayerContexts.PlaybackState.ClearPlayerState` | src/contexts/PlayerContexts.tsx:71-74 | empty list, index 0; the three flags unchanged |
| `PlayerContexts.PlaybackState.PlayNext` | src/contexts/PlayerContexts.tsx:79-87 | shuffle: index becomes the random draw; otherwise index + 1 when `hasNext` held, else unchanged; list and flags unchanged |
| `PlayerContexts.PlaybackState.PlayPrevious` | src/contexts/PlayerContexts.tsx:89-93 | index - 1 when `hasPrevious` held, else unchanged; list and flags unchanged |
| `Player.CurrentEpisode` | src/components/Player/index.tsx:64 | the episode is `list[index]` when the index lies in the list and absent otherwise |
| `Player.EpisodePresentIff` | src/components/Player/index.tsx:64 | in a valid state an episode is present iff the list is non-empty |
| `Player.MediaCommand` | src/components/Player/index.tsx:35-39 | a true `isPlaying` gives the play command and a false one the pause command |
| `Player.PlaybackEffect` | src/components/Player/index.tsx:30-41 | a command is issued only while an episode (and so a media element) is present, and it is play iff `isPlaying` |
| `Player.MediaEventsReconcile` | src/components/Player/index.tsx:117-118 | while an episode is shown, after the media's play event the effect issues play and after its pause event pause; the shown episode is unchanged |
| `Player.ButtonsDisabledIff` | src/components/Player/index.tsx:123-157 | no episode disables all five buttons; shuffle is disabled iff no episode or one-element list; previous iff no episode or not `hasPrevious`; next iff no episode or not `hasNext`; play and loop iff no episode |
| `Player.EnabledNextAdvances` | src/components/Player/index.tsx:146 | without shuffle, an enabled next button advances by one onto a shown episode, and a disabled one leaves a valid state unchanged |
| `Player.EnabledPreviousOutcome` | src/components/Player/index.tsx:132 | an enabled previous button without shuffle steps back onto a shown episode; in shuffle mode at index 0 it leaves no episode shown with the list kept |
| `Player.EpisodeEndedOutcome` | src/components/Player/index.tsx:56-62 | the end of an episode keeps the invariant and the flags, empties the list iff there is no next episode, and otherwise advances by one without shuffle |
| `Player.ShuffleStopsAtLastIndex` | src/contexts/PlayerContexts.tsx:76 | in shuffle mode at the last index, next is disabled and the end of the episode empties the list |
| `Player.AutoplayExhausts` | src/components/Player/index.tsx:56-62 | without shuffle, the k-th end event from index i lands on i + k while episodes remain, and the (length - i)-th empties the list |
| `Player.Player.constructor` | src/components/Player/index.tsx:10-11 | the component starts with progress 0 |
| `Player.Player.HandleSeek` | src/components/Player/index.tsx:51-54 | after a seek to `amount` both the media position and the displayed progress equal `amount` |
| `Player.Player.HandleEpisodeEnded` | src/components/Player/index.tsx:56-62 | calls `playNext` when `hasNext` held, otherwise `clearPlayerState` |
| `Player.Player.OnPlay` | src/components/Player/index.tsx:117 | the media's play event sets `isPlaying` true and changes nothing else |
| `Player.Player.OnPause` | src/components/Player/index.tsx:118 | the media's pause event sets `isPlaying` false and changes nothing else |
| `Player.ThreeEpisodeRun` | src/components/Player/index.tsx:56-62 | a three-episode list from index 0 without shuffle reaches index 2 after two `playNext` calls, next is then disabled, and the end event leaves an empty list at index 0 |
| `Player.PlayFromEmpty` | src/contexts/PlayerContexts.tsx:43-47 | `play(e)` on a fresh provider shows e and issues the play command |

## Left out

- Rendering (markup, images, the slider component, style classes): display only.
- The media element itself, its `ref`, the `timeupdate` subscription and `setupProgressListener`: media I/O and event plumbing. The media element's events appear as the methods `OnPlay`, `OnPause` and `HandleEpisodeEnded`.
- `Math.floor(currentTime)` in the progress listener: floating point; positions and progress are whole seconds here.
- `RandomIndex`: models `Math.random()` as an exact fraction in `[0, 1)`; rounding of the floating-point product `Math.random() * len`, which the code does not guard against, is not modelled.
- Native looping (`loop={isLooping}`): handled by the media element, not by the state machine; `isLooping` is only stored and toggled.
- `convertDurationTimeString`: its file is not part of this model, and it only formats for display.
- The React context and state-hook machinery, re-rendering and setter batching: each mutator is one atomic update of the current state, and `useEffect`'s firing only on a change of `isPlaying` is not modelled (`PlaybackEffect` gives the command for the current state).
