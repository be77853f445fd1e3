/** The specification of the audio-source cache: the name lookup that `Array.prototype.find`
    performs, the in-place update of the record it returns, and the "toggle all audio" rule. The
    handlers of module Relay are proved against these functions. */
module AudioCache {
  import opened Wrappers
  import opened Messages

  // ---------------------------------------------------------------------------------------
  // Updates by name

  /** `sources.find(s => s.name === name)`: the position of the first record with that name. */
  function FindByName(sources: seq<AudioSource>, name: string): (r: Option<nat>)
    ensures r.Some? ==> r.value < |sources| && sources[r.value].name == name
    ensures r.Some? ==> forall i :: 0 <= i < r.value ==> sources[i].name != name
    ensures r.None? ==> forall i :: 0 <= i < |sources| ==> sources[i].name != name
  {
    if sources == [] then None
    else if sources[0].name == name then Some(0)
    else
      match FindByName(sources[1..], name)
      case None => None
      case Some(k) => Some(k + 1)
  }

  /** `source` with the fields that are given replaced. */
  function Patch(source: AudioSource, muted: Option<bool>, volume: Option<int>): AudioSource {
    AudioSource(source.name,
                if muted.Some? then muted.value else source.muted,
                if volume.Some? then volume.value else source.volume)
  }

  /** The record is the first one in `sources` with its name. */
  ghost predicate IsFirstNamed(sources: seq<AudioSource>, i: int, name: string) {
    0 <= i < |sources| && sources[i].name == name && forall j :: 0 <= j < i ==> sources[j].name != name
  }

  /** Assigning fields of the record `find` returns: only the first record with the name changes,
      and only in the fields given; with no such record the list is unchanged. */
  function UpdateByName(sources: seq<AudioSource>, name: string, muted: Option<bool>, volume: Option<int>)
    : (r: seq<AudioSource>)
    ensures |r| == |sources|
    ensures forall i :: 0 <= i < |r| ==> r[i].name == sources[i].name
    ensures forall i :: 0 <= i < |r| && r[i] != sources[i] ==> IsFirstNamed(sources, i, name)
    ensures forall i :: IsFirstNamed(sources, i, name) ==> r[i] == Patch(sources[i], muted, volume)
    ensures muted.None? ==> forall i :: 0 <= i < |r| ==> r[i].muted == sources[i].muted
    ensures volume.None? ==> forall i :: 0 <= i < |r| ==> r[i].volume == sources[i].volume
    ensures (forall i :: 0 <= i < |sources| ==> sources[i].name != name) ==> r == sources
  {
    match FindByName(sources, name)
    case None => sources
    case Some(k) => sources[k := Patch(sources[k], muted, volume)]
  }

  /** An update by name keeps every name, so a later lookup of that name finds the record the
      update changed, and finds it holding the fields given. */
  lemma UpdateThenFind(sources: seq<AudioSource>, name: string, muted: Option<bool>, volume: Option<int>)
    ensures var r, k := UpdateByName(sources, name, muted, volume), FindByName(sources, name);
            FindByName(r, name) == k && (k.Some? ==> r[k.value] == Patch(sources[k.value], muted, volume))
  {
    var r := UpdateByName(sources, name, muted, volume);
    var k, k' := FindByName(sources, name), FindByName(r, name);
    if k.Some? {
      assert IsFirstNamed(sources, k.value, name);
    }
    if k'.Some? {
      assert r[k'.value].name == sources[k'.value].name;
    }
  }

  // ---------------------------------------------------------------------------------------
  // Toggle all

  /** Every cached source is muted; vacuously so when there is none. */
  predicate AllMuted(sources: seq<AudioSource>) {
    forall i :: 0 <= i < |sources| ==> sources[i].muted
  }

  /** The state toggle-all drives every source to: muted, unless every source is muted already. */
  function ToggleAllTarget(sources: seq<AudioSource>): (mute: bool)
    ensures mute <==> exists i :: 0 <= i < |sources| && !sources[i].muted
    ensures sources == [] ==> !mute
  {
    !AllMuted(sources)
  }

  /** The list as the toggle-all loop leaves it after handling its first `k` sources: those
      carry the flag `mute`, names and volumes kept, and the rest are untouched. */
  function MutedUpTo(sources: seq<AudioSource>, k: nat, mute: bool): (r: seq<AudioSource>)
    requires k <= |sources|
    ensures |r| == |sources|
    ensures forall j :: 0 <= j < |sources| ==> r[j] == if j < k then sources[j].(muted := mute) else sources[j]
  {
    if k == 0 then sources
    else MutedUpTo(sources, k - 1, mute)[k - 1 := sources[k - 1].(muted := mute)]
  }

  /** What toggle-all does for one source: when its state differs from `mute`, a `SetMute`
      command followed by an `AudioUpdated` broadcast; otherwise nothing. */
  function SourceEffects(source: AudioSource, mute: bool): seq<Effect> {
    if source.muted == mute then []
    else [Send(SetMute(source.name, mute)), Broadcast(AudioUpdated(source.name, mute, ToLevel(source.volume)))]
  }

  /** What toggle-all does for the first `k` sources, in list order. */
  function MuteEffects(sources: seq<AudioSource>, k: nat, mute: bool): seq<Effect>
    requires k <= |sources|
  {
    if k == 0 then [] else MuteEffects(sources, k - 1, mute) + SourceEffects(sources[k - 1], mute)
  }

  /** The positions of `pos` strictly increase. */
  predicate Increasing(pos: seq<nat>) {
    forall a, b :: 0 <= a < b < |pos| ==> pos[a] < pos[b]
  }

  /** The positions among the first `k` whose source's state differs from `mute`, in increasing
      order, each exactly once. */
  function DifferingAt(sources: seq<AudioSource>, k: nat, mute: bool): (pos: seq<nat>)
    requires k <= |sources|
    ensures Increasing(pos)
    ensures forall m :: 0 <= m < |pos| ==> pos[m] < k
    ensures forall j :: 0 <= j < k ==> (j in pos <==> sources[j].muted != mute)
  {
    if k == 0 then []
    else DifferingAt(sources, k - 1, mute) + (if sources[k - 1].muted == mute then [] else [k - 1])
  }

  /** Those of the first `k` sources whose state differs from `mute`, in list order. */
  function Differing(sources: seq<AudioSource>, k: nat, mute: bool): (r: seq<AudioSource>)
    requires k <= |sources|
    ensures |r| <= k
  {
    if k == 0 then []
    else Differing(sources, k - 1, mute) + (if sources[k - 1].muted == mute then [] else [sources[k - 1]])
  }

  /** The `m`-th differing source is the source at the `m`-th differing position: every differing
      source appears once, in list order, and nothing else does. */
  lemma {:induction false} DifferingInOrder(sources: seq<AudioSource>, k: nat, mute: bool)
    requires k <= |sources|
    ensures var r, pos := Differing(sources, k, mute), DifferingAt(sources, k, mute);
            |r| == |pos| && forall m :: 0 <= m < |r| ==> r[m] == sources[pos[m]]
  {
    if k > 0 {
      DifferingInOrder(sources, k - 1, mute);
    }
  }

  /** `effects` holds, for each source of `differing` in order, its `SetMute` command followed
      by its broadcast, and nothing else. */
  ghost predicate Paired(differing: seq<AudioSource>, effects: seq<Effect>, mute: bool) {
    |effects| == 2 * |differing|
    && forall i :: 0 <= i < |differing| ==>
         effects[2 * i] == Send(SetMute(differing[i].name, mute))
         && effects[2 * i + 1] == Broadcast(AudioUpdated(differing[i].name, mute, ToLevel(differing[i].volume)))
  }

  lemma PairedAppend(d: seq<AudioSource>, e: seq<Effect>, x: AudioSource, mute: bool)
    requires Paired(d, e, mute) && x.muted != mute
    ensures Paired(d + [x], e + SourceEffects(x, mute), mute)
  {
    var d', e' := d + [x], e + SourceEffects(x, mute);
    forall i | 0 <= i < |d'|
      ensures e'[2 * i] == Send(SetMute(d'[i].name, mute))
      ensures e'[2 * i + 1] == Broadcast(AudioUpdated(d'[i].name, mute, ToLevel(d'[i].volume)))
    {
      if i < |d| {
        assert d'[i] == d[i] && e'[2 * i] == e[2 * i] && e'[2 * i + 1] == e[2 * i + 1];
      }
    }
  }

  /** Toggle-all issues one `SetMute` command and then one broadcast for each differing source,
      in list order, and nothing else. */
  lemma {:induction false} MuteEffectsPairs(sources: seq<AudioSource>, k: nat, mute: bool)
    requires k <= |sources|
    ensures Paired(Differing(sources, k, mute), MuteEffects(sources, k, mute), mute)
  {
    if k > 0 {
      MuteEffectsPairs(sources, k - 1, mute);
      var last := sources[k - 1];
      if last.muted != mute {
        PairedAppend(Differing(sources, k - 1, mute), MuteEffects(sources, k - 1, mute), last, mute);
      } else {
        assert MuteEffects(sources, k, mute) == MuteEffects(sources, k - 1, mute) + [];
      }
    }
  }

  /** Toggle-all does nothing exactly when every source is already in the target state. */
  lemma {:induction false} MuteEffectsNoneIff(sources: seq<AudioSource>, k: nat, mute: bool)
    requires k <= |sources|
    ensures MuteEffects(sources, k, mute) == [] <==> forall j :: 0 <= j < k ==> sources[j].muted == mute
  {
    if k > 0 {
      MuteEffectsNoneIff(sources, k - 1, mute);
    }
  }

  /** After a complete toggle-all, toggling again targets the opposite state, provided there is
      at least one source; with none, the target stays `false`. */
  lemma ToggleAllTwice(sources: seq<AudioSource>)
    ensures var mute := ToggleAllTarget(sources);
            ToggleAllTarget(MutedUpTo(sources, |sources|, mute)) == (sources != [] && !mute)
  {
    var mute := ToggleAllTarget(sources);
    var after := MutedUpTo(sources, |sources|, mute);
    if sources != [] && !mute {
      assert !after[0].muted;
    }
  }

  /** Once toggle-all has run to completion, running it again with the same target does nothing. */
  lemma ToggleAllSettles(sources: seq<AudioSource>, mute: bool)
    ensures MuteEffects(MutedUpTo(sources, |sources|, mute), |sources|, mute) == []
  {
    MuteEffectsNoneIff(MutedUpTo(sources, |sources|, mute), |sources|, mute);
  }

  /** The position of the `SetMute` command the endpoint rejects, which aborts the loop; `|sources|`
      when every command issued is accepted. The caller names the rejected source by `failAt`;
      a source whose state already matches is skipped and issues no command to reject. */
  function StopIndex(sources: seq<AudioSource>, mute: bool, failAt: nat): (k: nat)
    ensures k <= |sources|
    ensures k < |sources| ==> k == failAt && sources[k].muted != mute
    ensures failAt < |sources| && sources[failAt].muted != mute ==> k == failAt
  {
    if failAt < |sources| && sources[failAt].muted != mute then failAt else |sources|
  }
}
