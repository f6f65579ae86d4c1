/** The player context provider: five mutable cells and the nine mutators
    that overwrite them. Each mutator is one atomic update of the current
    state, and its contract ties the new state to the matching transition
    of PlaybackModel, so the laws proved there apply to this object. */
module PlayerContexts {
  import opened PlaybackModel

  class PlaybackState {
    var episodeList: seq<Episode>
    var currentEpisodeIndex: int
    var isPlaying: bool
    var isLooping: bool
    var isShuffuling: bool

    /** The current value of the five cells. */
    function Snapshot(): State
      reads this
    {
      State(episodeList, currentEpisodeIndex, isPlaying, isLooping, isShuffuling)
    }

    /** The provider starts with an empty list, index 0 and all flags off. */
    constructor ()
      ensures Snapshot() == Initial()
      ensures episodeList == [] && currentEpisodeIndex == 0
      ensures !isPlaying && !isLooping && !isShuffuling
    {
      episodeList := [];
      currentEpisodeIndex := 0;
      isPlaying := false;
      isLooping := false;
      isShuffuling := false;
    }

    /** hasNext and hasPrevious, recomputed from the cells on every render. */
    predicate HasNext()
      reads this
    {
      PlaybackModel.HasNext(Snapshot())
    }

    predicate HasPrevious()
      reads this
    {
      PlaybackModel.HasPrevious(Snapshot())
    }

    method Play(episode: Episode)
      modifies this
      ensures episodeList == [episode] && currentEpisodeIndex == 0 && isPlaying
      ensures isLooping == old(isLooping) && isShuffuling == old(isShuffuling)
      ensures Snapshot() == PlaybackModel.Play(old(Snapshot()), episode)
    {
      episodeList := [episode];
      currentEpisodeIndex := 0;
      isPlaying := true;
    }

    /** The index is stored as given; nothing checks it against the list. */
    method PlayList(list: seq<Episode>, index: int)
      modifies this
      ensures episodeList == list && currentEpisodeIndex == index && isPlaying
      ensures isLooping == old(isLooping) && isShuffuling == old(isShuffuling)
      ensures Snapshot() == PlaybackModel.PlayList(old(Snapshot()), list, index)
    {
      episodeList := list;
      currentEpisodeIndex := index;
      isPlaying := true;
    }

    method TogglePlay()
      modifies this
      ensures isPlaying == !old(isPlaying)
      ensures episodeList == old(episodeList) && currentEpisodeIndex == old(currentEpisodeIndex)
      ensures isLooping == old(isLooping) && isShuffuling == old(isShuffuling)
      ensures Snapshot() == PlaybackModel.TogglePlay(old(Snapshot()))
    {
      isPlaying := !isPlaying;
    }

    method ToggleLoop()
      modifies this
      ensures isLooping == !old(isLooping)
      ensures episodeList == old(episodeList) && currentEpisodeIndex == old(currentEpisodeIndex)
      ensures isPlaying == old(isPlaying) && isShuffuling == old(isShuffuling)
      ensures Snapshot() == PlaybackModel.ToggleLoop(old(Snapshot()))
    {
      isLooping := !isLooping;
    }

    method ToggleShuffle()
      modifies this
      ensures isShuffuling == !old(isShuffuling)
      ensures episodeList == old(episodeList) && currentEpisodeIndex == old(currentEpisodeIndex)
      ensures isPlaying == old(isPlaying) && isLooping == old(isLooping)
      ensures Snapshot() == PlaybackModel.ToggleShuffle(old(Snapshot()))
    {
      isShuffuling := !isShuffuling;
    }

    method SetPlayingState(state: bool)
      modifies this
      ensures isPlaying == state
      ensures episodeList == old(episodeList) && currentEpisodeIndex == old(currentEpisodeIndex)
      ensures isLooping == old(isLooping) && isShuffuling == old(isShuffuling)
      ensures Snapshot() == PlaybackModel.SetPlayingState(old(Snapshot()), state)
    {
      isPlaying := state;
    }

    method ClearPlayerState()
      modifies this
      ensures episodeList == [] && currentEpisodeIndex == 0
      ensures isPlaying == old(isPlaying) && isLooping == old(isLooping) && isShuffuling == old(isShuffuling)
      ensures Snapshot() == PlaybackModel.ClearPlayerState(old(Snapshot()))
    {
      episodeList := [];
      currentEpisodeIndex := 0;
    }

    /** random is the value Math.random() returned for this call. */
    method PlayNext(random: Random)
      modifies this
      ensures old(isShuffuling) ==> currentEpisodeIndex == RandomIndex(|episodeList|, random)
      ensures !old(isShuffuling) && old(HasNext()) ==> currentEpisodeIndex == old(currentEpisodeIndex) + 1
      ensures !old(isShuffuling) && !old(HasNext()) ==> currentEpisodeIndex == old(currentEpisodeIndex)
      ensures episodeList == old(episodeList)
      ensures isPlaying == old(isPlaying) && isLooping == old(isLooping) && isShuffuling == old(isShuffuling)
      ensures Snapshot() == PlaybackModel.PlayNext(old(Snapshot()), random)
    {
      if isShuffuling {
        var nextRandomEpisodeIndex := RandomIndex(|episodeList|, random);
        currentEpisodeIndex := nextRandomEpisodeIndex;
      } else if HasNext() {
        currentEpisodeIndex := currentEpisodeIndex + 1;
      }
    }

    method PlayPrevious()
      modifies this
      ensures old(HasPrevious()) ==> currentEpisodeIndex == old(currentEpisodeIndex) - 1
      ensures !old(HasPrevious()) ==> currentEpisodeIndex == old(currentEpisodeIndex)
      ensures episodeList == old(episodeList)
      ensures isPlaying == old(isPlaying) && isLooping == old(isLooping) && isShuffuling == old(isShuffuling)
      ensures Snapshot() == PlaybackModel.PlayPrevious(old(Snapshot()))
    {
      if HasPrevious() {
        currentEpisodeIndex := currentEpisodeIndex - 1;
      }
    }
  }
}
