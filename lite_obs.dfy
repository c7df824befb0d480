// The global registry of sources: every source, and separately the audio
// sources, each kept in the order added.
module LiteObs {
  import opened LiteSource

  /** The list with its first occurrence of `x`, if any, erased. */
  function RemoveFirst<T(==)>(s: seq<T>, x: T): seq<T>
  {
    if s == [] then []
    else if s[0] == x then s[1..]
    else [s[0]] + RemoveFirst(s[1..], x)
  }

  /** Erasing an absent entry changes nothing. */
  lemma {:induction false} RemoveFirstAbsent<T>(s: seq<T>, x: T)
    requires x !in s
    ensures RemoveFirst(s, x) == s
  {
    if s != [] {
      RemoveFirstAbsent(s[1..], x);
    }
  }

  /** With its first occurrence at `i`, exactly entry `i` goes and the
      others keep their order. */
  lemma {:induction false} RemoveFirstAt<T>(s: seq<T>, x: T, i: nat)
    requires i < |s| && s[i] == x && x !in s[..i]
    ensures RemoveFirst(s, x) == s[..i] + s[i + 1..]
  {
    if i > 0 {
      assert s[0] in s[..i];
      assert s[1..][..i - 1] == s[1..i];
      RemoveFirstAt(s[1..], x, i - 1);
      assert s[..i] == [s[0]] + s[1..][..i - 1];
      assert s[i + 1..] == s[1..][i..];
    }
  }

  /** Exactly one occurrence goes: later duplicates stay. */
  lemma {:induction false} RemoveFirstMultiset<T>(s: seq<T>, x: T)
    ensures multiset(RemoveFirst(s, x)) == multiset(s) - multiset{x}
    ensures x in s ==> |RemoveFirst(s, x)| == |s| - 1
    ensures x !in s ==> |RemoveFirst(s, x)| == |s|
  {
    if s != [] {
      assert s == [s[0]] + s[1..];
      if s[0] != x {
        RemoveFirstMultiset(s[1..], x);
      }
    }
  }

  /** Removing a source added to a list that did not hold it restores the
      list. */
  lemma RemoveFirstAppended<T>(s: seq<T>, x: T)
    requires x !in s
    ensures RemoveFirst(s + [x], x) == s
  {
    assert (s + [x])[..|s|] == s;
    RemoveFirstAt(s + [x], x, |s|);
  }

  /** The loop of `remove_source` over one list: walk it from the front and
      erase the first entry equal to `x`. */
  method EraseFirst<T(==)>(list: seq<T>, x: T) returns (r: seq<T>)
    ensures r == RemoveFirst(list, x)
  {
    var i := 0;
    while i < |list|
      invariant i <= |list| && x !in list[..i]
    {
      if list[i] == x {
        RemoveFirstAt(list, x, i);
        return list[..i] + list[i + 1..];
      }
      assert list[..i + 1] == list[..i] + [list[i]];
      i := i + 1;
    }
    assert list[..i] == list;
    RemoveFirstAbsent(list, x);
    return list;
  }

  class Obs {
    var sources: seq<Source>
    var audioSources: seq<Source>

    constructor ()
      ensures sources == [] && audioSources == []
    {
      sources := [];
      audioSources := [];
    }

    /** `add_source`: every source goes to the back of `sources`, and an
        audio source also to the back of `audioSources`. */
    method AddSource(source: Source, isAudioSource: bool)
      modifies this
      ensures audioSources == old(audioSources) + (if isAudioSource then [source] else [])
      ensures sources == old(sources) + [source]
    {
      if isAudioSource {
        audioSources := audioSources + [source];
      }
      sources := sources + [source];
    }

    /** `remove_source`: the first entry of each list that is this source
        is erased. */
    method RemoveSource(source: Source)
      modifies this
      ensures audioSources == RemoveFirst(old(audioSources), source)
      ensures sources == RemoveFirst(old(sources), source)
    {
      audioSources := EraseFirst(audioSources, source);
      sources := EraseFirst(sources, source);
    }
  }
}

// Creating and destroying a source registers it with, and removes it from,
// the global registry, which is passed in.
module SourceLifecycle {
  import opened LiteSource
  import opened LiteObs

  /** `obs_source_create`: a new source, appended to the registry with its
      audio flag. A new source has no flags, so it never joins the audio
      sources. */
  method ObsSourceCreate(obs: Obs, id: string) returns (source: Source)
    modifies obs
    ensures fresh(source) && !source.IsAudioSource()
    ensures obs.sources == old(obs.sources) + [source]
    ensures obs.audioSources == old(obs.audioSources)
  {
    source := new Source(id);
    obs.AddSource(source, source.IsAudioSource());
  }

  /** `obs_source_destroy`. */
  method ObsSourceDestroy(obs: Obs, source: Source)
    modifies obs
    ensures obs.audioSources == RemoveFirst(old(obs.audioSources), source)
    ensures obs.sources == RemoveFirst(old(obs.sources), source)
  {
    obs.RemoveSource(source);
  }
}
