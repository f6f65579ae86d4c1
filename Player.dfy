/** The player component: what it derives from the playback state (the
    current episode, the disabled state of the five buttons, the command it
    gives the media element) and the handlers through which media events
    and the progress slider feed back into that state. */
module Player {
  import opened PlaybackModel
  import PlayerContexts

  datatype Option<T> = None | Some(value: T)

  /** The two commands the component gives the media element. */
  datatype Command = PlayMedia | PauseMedia

  /** episodeList[currentEpisodeIndex]: there is no episode when the index
      falls outside the list (an empty list, or the index -1). */
  function CurrentEpisode(s: State): (e: Option<Episode>)
    ensures e.Some? <==> 0 <= s.currentEpisodeIndex < |s.episodeList|
    ensures e.Some? ==> e.value == s.episodeList[s.currentEpisodeIndex]
  {
    if 0 <= s.currentEpisodeIndex < |s.episodeList| then Some(s.episodeList[s.currentEpisodeIndex]) else None
  }

  /** In a valid state an episode is shown exactly when the list is not empty. */
  lemma EpisodePresentIff(s: State)
    requires Valid(s)
    ensures CurrentEpisode(s).Some? <==> |s.episodeList| > 0
  {
  }

  /** The play/pause command that follows a change of isPlaying. */
  function MediaCommand(isPlaying: bool): (c: Command)
    ensures c == PlayMedia <==> isPlaying
    ensures c == PauseMedia <==> !isPlaying
  {
    if isPlaying then PlayMedia else PauseMedia
  }

  /** The effect issues the command only while a media element exists, which
      is while an episode is shown. */
  function PlaybackEffect(s: State): (c: Option<Command>)
    ensures c.None? <==> CurrentEpisode(s).None?
    ensures c.Some? ==> (c.value == PlayMedia <==> s.isPlaying)
  {
    if CurrentEpisode(s).None? then None else Some(MediaCommand(s.isPlaying))
  }

  /** The media element's own play and pause events feed back through
      setPlayingState; while an episode is shown, the command the effect then
      issues matches the event. */
  lemma MediaEventsReconcile(s: State)
    ensures CurrentEpisode(s).Some? ==> PlaybackEffect(SetPlayingState(s, true)) == Some(PlayMedia)
    ensures CurrentEpisode(s).Some? ==> PlaybackEffect(SetPlayingState(s, false)) == Some(PauseMedia)
    ensures CurrentEpisode(s).None? ==> PlaybackEffect(SetPlayingState(s, true)).None?
    ensures CurrentEpisode(SetPlayingState(s, true)) == CurrentEpisode(s)
    ensures CurrentEpisode(SetPlayingState(s, false)) == CurrentEpisode(s)
  {
  }

  /** The disabled attribute of each of the five buttons. */
  datatype Disabled = Disabled(shuffle: bool, previous: bool, play: bool, next: bool, loop: bool)

  function ButtonsDisabled(s: State): Disabled {
    var noEpisode := CurrentEpisode(s).None?;
    Disabled(
      noEpisode || |s.episodeList| == 1,
      noEpisode || !HasPrevious(s),
      noEpisode,
      noEpisode || !HasNext(s),
      noEpisode)
  }

  /** With no episode shown every button is disabled; with one shown, play
      and loop are enabled, and each of the other three is disabled exactly
      when its own condition says so. */
  lemma ButtonsDisabledIff(s: State)
    ensures CurrentEpisode(s).None? ==> ButtonsDisabled(s) == Disabled(true, true, true, true, true)
    ensures ButtonsDisabled(s).shuffle <==> CurrentEpisode(s).None? || |s.episodeList| == 1
    ensures ButtonsDisabled(s).previous <==> CurrentEpisode(s).None? || !HasPrevious(s)
    ensures ButtonsDisabled(s).next <==> CurrentEpisode(s).None? || !HasNext(s)
    ensures ButtonsDisabled(s).play <==> CurrentEpisode(s).None?
    ensures ButtonsDisabled(s).loop <==> CurrentEpisode(s).None?
  {
  }

  /** Without shuffle, an enabled next button advances by exactly one onto an
      episode that is shown; from a valid state, a disabled one would leave
      the state as it is. */
  lemma EnabledNextAdvances(s: State, r: Random)
    requires !s.isShuffuling
    ensures !ButtonsDisabled(s).next ==> PlayNext(s, r).currentEpisodeIndex == s.currentEpisodeIndex + 1
    ensures !ButtonsDisabled(s).next ==>
      CurrentEpisode(PlayNext(s, r)) == Some(s.episodeList[s.currentEpisodeIndex + 1])
    ensures Valid(s) && ButtonsDisabled(s).next ==> PlayNext(s, r) == s
  {
  }

  /** An enabled previous button without shuffle steps back to an episode
      that is shown; in shuffle mode at index 0 it is still enabled and
      leaves the player with no episode although the list is unchanged. */
  lemma EnabledPreviousOutcome(s: State)
    requires !ButtonsDisabled(s).previous
    ensures !s.isShuffuling ==> CurrentEpisode(PlayPrevious(s)) == Some(s.episodeList[s.currentEpisodeIndex - 1])
    ensures s.isShuffuling && s.currentEpisodeIndex == 0 ==>
      CurrentEpisode(PlayPrevious(s)).None? && PlayPrevious(s).episodeList == s.episodeList
  {
  }

  /** handleEpisodeEnded: play the next episode when hasNext holds, otherwise
      clear the playlist. */
  function EpisodeEnded(s: State, r: Random): State {
    if HasNext(s) then PlayNext(s, r) else ClearPlayerState(s)
  }

  /** Ending an episode keeps the invariant, leaves the flags alone, and
      empties the list exactly when there is no next episode, in shuffle
      mode as well. */
  lemma EpisodeEndedOutcome(s: State, r: Random)
    requires Valid(s)
    ensures var t := EpisodeEnded(s, r);
      Valid(t) &&
      t.isPlaying == s.isPlaying && t.isLooping == s.isLooping && t.isShuffuling == s.isShuffuling &&
      (!HasNext(s) ==> t.episodeList == [] && t.currentEpisodeIndex == 0) &&
      (HasNext(s) ==> t.episodeList == s.episodeList) &&
      (HasNext(s) && !s.isShuffuling ==> t.currentEpisodeIndex == s.currentEpisodeIndex + 1)
  {
  }

  /** Because hasNext ignores the shuffle flag, shuffle mode gives no next
      episode at the last index: next is disabled and the end event empties
      the list. */
  lemma ShuffleStopsAtLastIndex(s: State, r: Random)
    requires Valid(s) && s.isShuffuling && s.currentEpisodeIndex == |s.episodeList| - 1
    ensures ButtonsDisabled(s).next
    ensures EpisodeEnded(s, r).episodeList == []
  {
  }

  /** n consecutive end-of-episode events. */
  function EndedTimes(s: State, n: nat): State
    decreases n
  {
    if n == 0 then s else EndedTimes(EpisodeEnded(s, Fraction(0, 1)), n - 1)
  }

  /** Without shuffle, playback runs from the current episode to the last
      one and then empties the list: |list| - index end events leave an
      empty list at index 0 with the flags as they were, and while episodes
      remain, the k-th event lands on index + k. */
  lemma {:induction false} AutoplayExhausts(s: State, k: nat)
    requires Valid(s) && !s.isShuffuling && |s.episodeList| > 0
    requires k <= |s.episodeList| - s.currentEpisodeIndex
    ensures k < |s.episodeList| - s.currentEpisodeIndex ==>
      EndedTimes(s, k) == s.(currentEpisodeIndex := s.currentEpisodeIndex + k)
    ensures k == |s.episodeList| - s.currentEpisodeIndex ==>
      EndedTimes(s, k) == ClearPlayerState(s)
    decreases k
  {
    if k > 0 {
      var t := EpisodeEnded(s, Fraction(0, 1));
      if HasNext(s) {
        assert t == s.(currentEpisodeIndex := s.currentEpisodeIndex + 1);
        AutoplayExhausts(t, k - 1);
      } else {
        assert t == ClearPlayerState(s);
        assert k == 1;
      }
    }
  }

  /** The component's own cells: the displayed progress and the position of
      the media element, both in seconds. */
  class Player {
    const context: PlayerContexts.PlaybackState
    var progress: int
    var mediaPosition: int

    constructor (context: PlayerContexts.PlaybackState)
      ensures this.context == context && progress == 0 && mediaPosition == 0
    {
      this.context := context;
      progress := 0;
      mediaPosition := 0;
    }

    /** Seeking moves the media element and shows the new position at once,
        without waiting for a time update. */
    method HandleSeek(amount: int)
      modifies this
      ensures mediaPosition == amount && progress == amount
    {
      mediaPosition := amount;
      progress := amount;
    }

    /** The media element's ended event; random is what Math.random()
        returns should playNext run in shuffle mode. */
    method HandleEpisodeEnded(random: Random)
      modifies context
      ensures old(context.HasNext()) ==> context.Snapshot() == PlayNext(old(context.Snapshot()), random)
      ensures !old(context.HasNext()) ==> context.Snapshot() == ClearPlayerState(old(context.Snapshot()))
      ensures context.Snapshot() == EpisodeEnded(old(context.Snapshot()), random)
    {
      if context.HasNext() {
        context.PlayNext(random);
      } else {
        context.ClearPlayerState();
      }
    }

    /** The media element's play and pause events. */
    method OnPlay()
      modifies context
      ensures context.Snapshot() == SetPlayingState(old(context.Snapshot()), true)
    {
      context.SetPlayingState(true);
    }

    method OnPause()
      modifies context
      ensures context.Snapshot() == SetPlayingState(old(context.Snapshot()), false)
    {
      context.SetPlayingState(false);
    }
  }

  /** A three-episode list played from the start without shuffle: two calls
      of playNext reach the last episode, where next is disabled, and its
      end event empties the list. */
  method ThreeEpisodeRun(a: Episode, b: Episode, c: Episode)
    returns (indexAfterTwo: int, nextDisabled: bool, listAfterEnd: seq<Episode>, indexAfterEnd: int)
    ensures indexAfterTwo == 2 && nextDisabled
    ensures listAfterEnd == [] && indexAfterEnd == 0
  {
    var state := new PlayerContexts.PlaybackState();
    var player := new Player(state);
    state.PlayList([a, b, c], 0);
    state.PlayNext(Fraction(0, 1));
    state.PlayNext(Fraction(0, 1));
    indexAfterTwo := state.currentEpisodeIndex;
    nextDisabled := ButtonsDisabled(state.Snapshot()).next;
    player.HandleEpisodeEnded(Fraction(0, 1));
    listAfterEnd, indexAfterEnd := state.episodeList, state.currentEpisodeIndex;
  }

  /** play(e) from the initial state shows e and starts playback. */
  method PlayFromEmpty(e: Episode) returns (shown: Option<Episode>, command: Option<Command>)
    ensures shown == Some(e) && command == Some(PlayMedia)
  {
    var state := new PlayerContexts.PlaybackState();
    state.Play(e);
    shown := CurrentEpisode(state.Snapshot());
    command := PlaybackEffect(state.Snapshot());
  }
}
