/** The playback state of the player context as a value, the state machine's
    transitions as functions over it, and the laws those transitions obey.
    The class in PlayerContexts.dfy is proved to follow these functions, so
    every law here also holds of the mutable provider. */
module PlaybackModel {

  /** An episode record as the data source supplies it. The state machine
      only stores and returns episodes; it never looks inside them. */
  datatype Episode = Episode(title: string, members: string, thumbnail: string, duration: int, url: string)

  /** A value of Math.random(), written as the exact fraction num / den. */
  datatype Fraction = Fraction(num: nat, den: nat)

  /** Math.random() promises a value in [0, 1). */
  type Random = f: Fraction | f.num < f.den witness Fraction(0, 1)

  /** The five state cells of the provider: the playlist, the current index
      and the three flags (isShuffuling keeps the program's spelling). */
  datatype State = State(
    episodeList: seq<Episode>,
    currentEpisodeIndex: int,
    isPlaying: bool,
    isLooping: bool,
    isShuffuling: bool)

  /** The state the provider starts with: an empty list, index 0, all flags off. */
  function Initial(): State {
    State([], 0, false, false, false)
  }

  /** The index invariant: the index selects an episode of a non-empty list,
      and is 0 when the list is empty. */
  predicate IndexFits(list: seq<Episode>, index: int) {
    if |list| == 0 then index == 0 else 0 <= index < |list|
  }

  predicate Valid(s: State) {
    IndexFits(s.episodeList, s.currentEpisodeIndex)
  }

  /** Derived predicates; hasNext does not look at the shuffle flag. */
  predicate HasNext(s: State) {
    s.currentEpisodeIndex + 1 < |s.episodeList|
  }

  predicate HasPrevious(s: State) {
    s.isShuffuling || s.currentEpisodeIndex > 0
  }

  /** Math.floor(Math.random() * len) for the exact random value r. */
  function RandomIndex(len: nat, r: Random): (i: int)
    ensures len == 0 ==> i == 0
    ensures len > 0 ==> 0 <= i < len
  {
    var p := r.num * len;
    if len == 0 then
      0
    else
      ProductBelow(r.num, r.den, len);
      QuotientBelow(p, r.den, len);
      p / r.den
  }

  lemma ProductBelow(a: nat, b: nat, c: nat)
    requires a < b && 0 < c
    ensures a * c < b * c
  {
  }

  lemma QuotientBelow(p: nat, d: nat, n: nat)
    requires 0 < d && p < d * n
    ensures p / d < n
  {
  }

  // ---------------------------------------------------------------------
  // Transitions, one per mutator of the provider.

  function Play(s: State, episode: Episode): State {
    s.(episodeList := [episode], currentEpisodeIndex := 0, isPlaying := true)
  }

  /** The index is not checked against the list. */
  function PlayList(s: State, list: seq<Episode>, index: int): State {
    s.(episodeList := list, currentEpisodeIndex := index, isPlaying := true)
  }

  function TogglePlay(s: State): State {
    s.(isPlaying := !s.isPlaying)
  }

  function ToggleLoop(s: State): State {
    s.(isLooping := !s.isLooping)
  }

  function ToggleShuffle(s: State): State {
    s.(isShuffuling := !s.isShuffuling)
  }

  function SetPlayingState(s: State, playing: bool): State {
    s.(isPlaying := playing)
  }

  /** Empties the list; the three flags are left as they were. */
  function ClearPlayerState(s: State): State {
    s.(episodeList := [], currentEpisodeIndex := 0)
  }

  /** In shuffle mode the index is drawn from r; otherwise it advances when
      there is a next episode and stays put when there is not. */
  function PlayNext(s: State, r: Random): State {
    if s.isShuffuling then
      s.(currentEpisodeIndex := RandomIndex(|s.episodeList|, r))
    else if HasNext(s) then
      s.(currentEpisodeIndex := s.currentEpisodeIndex + 1)
    else
      s
  }

  /** Decrements whenever hasPrevious holds, which in shuffle mode is always. */
  function PlayPrevious(s: State): State {
    if HasPrevious(s) then s.(currentEpisodeIndex := s.currentEpisodeIndex - 1) else s
  }

  // ---------------------------------------------------------------------
  // Any sequence of calls into the provider.

  datatype Op =
    | PlayOp(episode: Episode)
    | PlayListOp(list: seq<Episode>, index: int)
    | TogglePlayOp
    | ToggleLoopOp
    | ToggleShuffleOp
    | SetPlayingStateOp(playing: bool)
    | ClearPlayerStateOp
    | PlayNextOp(random: Random)
    | PlayPreviousOp

  function Step(s: State, op: Op): State {
    match op
    case PlayOp(e) => Play(s, e)
    case PlayListOp(list, i) => PlayList(s, list, i)
    case TogglePlayOp => TogglePlay(s)
    case ToggleLoopOp => ToggleLoop(s)
    case ToggleShuffleOp => ToggleShuffle(s)
    case SetPlayingStateOp(b) => SetPlayingState(s, b)
    case ClearPlayerStateOp => ClearPlayerState(s)
    case PlayNextOp(r) => PlayNext(s, r)
    case PlayPreviousOp => PlayPrevious(s)
  }

  function Run(s: State, ops: seq<Op>): State
    decreases |ops|
  {
    if ops == [] then s else Run(Step(s, ops[0]), ops[1..])
  }

  /** The calls after which the index invariant still holds: all but a
      playList with an index outside its list and a shuffle-mode
      playPrevious at index 0. */
  predicate Safe(s: State, op: Op) {
    match op
    case PlayListOp(list, i) => IndexFits(list, i)
    case PlayPreviousOp => !(s.isShuffuling && s.currentEpisodeIndex == 0)
    case _ => true
  }

  predicate AllSafe(s: State, ops: seq<Op>)
    decreases |ops|
  {
    ops == [] || (Safe(s, ops[0]) && AllSafe(Step(s, ops[0]), ops[1..]))
  }

  // ---------------------------------------------------------------------
  // Laws of the individual mutators.

  lemma InitialIsValid()
    ensures Valid(Initial()) && !HasNext(Initial())
    ensures Initial().episodeList == [] && !Initial().isPlaying
  {
  }

  /** play(e) makes e the only and current episode and starts playback. */
  lemma PlayResult(s: State, e: Episode)
    ensures var t := Play(s, e);
      t.episodeList == [e] && t.currentEpisodeIndex == 0 && t.isPlaying &&
      t.isLooping == s.isLooping && t.isShuffuling == s.isShuffuling &&
      Valid(t) && t.episodeList[t.currentEpisodeIndex] == e && !HasNext(t)
  {
  }

  /** playList keeps the invariant exactly when its index fits its list. */
  lemma PlayListValidIff(s: State, list: seq<Episode>, index: int)
    ensures var t := PlayList(s, list, index);
      t.episodeList == list && t.currentEpisodeIndex == index && t.isPlaying &&
      t.isLooping == s.isLooping && t.isShuffuling == s.isShuffuling &&
      (Valid(t) <==> IndexFits(list, index))
  {
  }

  /** Each toggle negates its own flag, leaves every other cell alone, and
      undoes itself. */
  lemma TogglesAreInvolutions(s: State)
    ensures TogglePlay(s).isPlaying != s.isPlaying && TogglePlay(s).(isPlaying := s.isPlaying) == s
    ensures ToggleLoop(s).isLooping != s.isLooping && ToggleLoop(s).(isLooping := s.isLooping) == s
    ensures ToggleShuffle(s).isShuffuling != s.isShuffuling && ToggleShuffle(s).(isShuffuling := s.isShuffuling) == s
    ensures TogglePlay(TogglePlay(s)) == s
    ensures ToggleLoop(ToggleLoop(s)) == s
    ensures ToggleShuffle(ToggleShuffle(s)) == s
  {
  }

  /** setPlayingState(b) sets the flag to b, changes nothing else, and doing
      it twice is doing it once. */
  lemma SetPlayingStateIdempotent(s: State, b: bool)
    ensures SetPlayingState(s, b).isPlaying == b
    ensures SetPlayingState(s, b).(isPlaying := s.isPlaying) == s
    ensures SetPlayingState(SetPlayingState(s, b), b) == SetPlayingState(s, b)
  {
  }

  /** clearPlayerState always empties the list and resets the index, keeps
      the flags, restores the invariant and is idempotent. */
  lemma ClearResets(s: State)
    ensures var t := ClearPlayerState(s);
      t.episodeList == [] && t.currentEpisodeIndex == 0 &&
      t.isPlaying == s.isPlaying && t.isLooping == s.isLooping && t.isShuffuling == s.isShuffuling &&
      Valid(t) && !HasNext(t) && ClearPlayerState(t) == t
  {
  }

  /** hasNext ignores the shuffle flag; hasPrevious always holds in shuffle
      mode; a valid singleton list without shuffle has neither. */
  lemma NeighbourPredicates(s: State, shuffle: bool)
    ensures HasNext(s) <==> HasNext(s.(isShuffuling := shuffle))
    ensures s.isShuffuling ==> HasPrevious(s)
    ensures Valid(s) && |s.episodeList| == 1 && !s.isShuffuling ==> !HasNext(s) && !HasPrevious(s)
  {
  }

  /** Without shuffle, playNext advances exactly when hasNext holds and is
      otherwise a no-op; the random value plays no part. */
  lemma SequentialNext(s: State, r: Random, r': Random)
    requires !s.isShuffuling
    ensures HasNext(s) ==> PlayNext(s, r) == s.(currentEpisodeIndex := s.currentEpisodeIndex + 1)
    ensures !HasNext(s) ==> PlayNext(s, r) == s
    ensures PlayNext(s, r) == PlayNext(s, r')
  {
  }

  /** In shuffle mode, playNext lands inside a non-empty list and on 0 for an
      empty one, touching nothing but the index. */
  lemma ShuffleNextInRange(s: State, r: Random)
    requires s.isShuffuling
    ensures var t := PlayNext(s, r);
      t.(currentEpisodeIndex := s.currentEpisodeIndex) == s &&
      (|s.episodeList| == 0 ==> t.currentEpisodeIndex == 0) &&
      (|s.episodeList| > 0 ==> 0 <= t.currentEpisodeIndex < |s.episodeList|) &&
      Valid(t)
  {
  }

  /** Every index of a non-empty list is drawn by some value of Math.random(),
      including the current one. */
  lemma ShuffleNextReachesEvery(s: State, k: int)
    requires s.isShuffuling && 0 <= k < |s.episodeList|
    ensures exists r: Random :: PlayNext(s, r).currentEpisodeIndex == k
  {
    var n := |s.episodeList|;
    var r: Random := Fraction(k, n);
    ExactQuotient(k, n);
    assert PlayNext(s, r).currentEpisodeIndex == k;
  }

  lemma ExactQuotient(k: nat, n: nat)
    requires 0 < n
    ensures (k * n) / n == k
  {
    var q, m := (k * n) / n, (k * n) % n;
    assert k * n == q * n + m;
    assert (k - q) * n == m by {
      assert (k - q) * n == k * n - q * n;
    }
    NonZeroMultiple(k - q, n);
  }

  lemma NonZeroMultiple(d: int, n: int)
    requires 0 <= n
    ensures d >= 1 ==> d * n >= n
    ensures d <= -1 ==> d * n <= 0 - n
  {
  }

  /** Without shuffle, playPrevious undoes a playNext that advanced. */
  lemma PreviousUndoesNext(s: State, r: Random)
    requires Valid(s) && !s.isShuffuling && HasNext(s)
    ensures PlayPrevious(PlayNext(s, r)) == s
  {
  }

  /** In shuffle mode playPrevious always decrements, so from index 0 it
      reaches -1 and leaves the invariant. */
  lemma ShufflePreviousDecrements(s: State)
    requires s.isShuffuling
    ensures PlayPrevious(s) == s.(currentEpisodeIndex := s.currentEpisodeIndex - 1)
    ensures s.currentEpisodeIndex == 0 ==> PlayPrevious(s).currentEpisodeIndex == -1 && !Valid(PlayPrevious(s))
  {
  }

  /** From a valid state, one call keeps the invariant exactly when it is safe. */
  lemma StepValidIff(s: State, op: Op)
    requires Valid(s)
    ensures Valid(Step(s, op)) <==> Safe(s, op)
  {
  }

  /** Any run of safe calls from a valid state ends in a valid state. */
  lemma {:induction false} RunPreservesValid(s: State, ops: seq<Op>)
    requires Valid(s) && AllSafe(s, ops)
    ensures Valid(Run(s, ops))
    decreases |ops|
  {
    if ops != [] {
      StepValidIff(s, ops[0]);
      RunPreservesValid(Step(s, ops[0]), ops[1..]);
    }
  }

  // ---------------------------------------------------------------------
  // Repeated playNext without shuffle.

  /** n calls of playNext; without shuffle the random value is irrelevant
      (SequentialNext), so a fixed one is used. */
  function NextTimes(s: State, n: nat): State
    decreases n
  {
    if n == 0 then s else NextTimes(PlayNext(s, Fraction(0, 1)), n - 1)
  }

  function Min(a: int, b: int): int {
    if a <= b then a else b
  }

  /** Without shuffle, n calls of playNext from a valid index i reach
      min(i + n, |list| - 1) and change nothing but the index. */
  lemma {:induction false} SequentialTraversal(s: State, n: nat)
    requires Valid(s) && !s.isShuffuling && |s.episodeList| > 0
    ensures NextTimes(s, n) == s.(currentEpisodeIndex := Min(s.currentEpisodeIndex + n, |s.episodeList| - 1))
    decreases n
  {
    if n > 0 {
      var t := PlayNext(s, Fraction(0, 1));
      SequentialTraversal(t, n - 1);
    }
  }

  /** Starting at 0 without shuffle, the k-th call lands on index k while
      k < |list|, hasNext fails only at the last index, and every later call
      is a no-op. */
  lemma VisitsInOrder(s: State, k: nat)
    requires Valid(s) && !s.isShuffuling && |s.episodeList| > 0 && s.currentEpisodeIndex == 0
    ensures k < |s.episodeList| ==> NextTimes(s, k).currentEpisodeIndex == k
    ensures k < |s.episodeList| ==> (HasNext(NextTimes(s, k)) <==> k < |s.episodeList| - 1)
    ensures k >= |s.episodeList| - 1 ==> NextTimes(s, k) == NextTimes(s, |s.episodeList| - 1)
    ensures k >= |s.episodeList| - 1 ==> PlayNext(NextTimes(s, k), Fraction(0, 1)) == NextTimes(s, k)
  {
    SequentialTraversal(s, k);
    SequentialTraversal(s, |s.episodeList| - 1);
  }
}
