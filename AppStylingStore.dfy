/** The renderer's app-styling store: the user's app targets and the
    tones, each held as a record keyed by id and refreshed through the
    main process. A failed call (`None`) is logged and changes nothing. */
module AppStylingStore {
  import opened Common
  import AppTargetRepo

  type AppTarget = AppTargetRepo.AppTarget
  type Tone = AppTargetRepo.Tone

  /** The `reduce` that keys a list by id: every id of the list is a key,
      and a later element replaces an earlier one with the same id. */
  function ById<T>(xs: seq<T>, id: T -> string): (r: map<string, T>)
    ensures r.Keys == set i | 0 <= i < |xs| :: id(xs[i])
    decreases |xs|
  {
    if xs == [] then map[]
    else
      var init := xs[..|xs| - 1];
      var r := ById(init, id)[id(xs[|xs| - 1]) := xs[|xs| - 1]];
      assert forall i :: 0 <= i < |init| ==> init[i] == xs[i];
      r
  }

  /** The value kept under an id is the last element carrying it. */
  lemma {:induction false} ByIdLastWins<T>(xs: seq<T>, id: T -> string, i: nat)
    requires i < |xs|
    requires forall j :: i < j < |xs| ==> id(xs[j]) != id(xs[i])
    ensures id(xs[i]) in ById(xs, id) && ById(xs, id)[id(xs[i])] == xs[i]
    decreases |xs|
  {
    if i < |xs| - 1 {
      var init := xs[..|xs| - 1];
      assert forall j :: i < j < |init| ==> init[j] == xs[j];
      ByIdLastWins(init, id, i);
    }
  }

  function TargetId(t: AppTarget): string {
    t.id
  }

  function ToneId(t: Tone): string {
    t.id
  }

  class AppStyling {
    var appTargets: map<string, AppTarget>
    var tones: map<string, Tone>
    var isLoading: bool

    constructor()
      ensures appTargets == map[] && tones == map[] && !isLoading
    {
      appTargets, tones, isLoading := map[], map[], false;
    }

    /** `loadAppTargets`: the record is rebuilt from the list; loading is
        over either way. */
    method LoadAppTargets(listed: Option<seq<AppTarget>>)
      modifies this
      ensures listed.Some? ==> appTargets == ById(listed.value, TargetId)
      ensures listed.None? ==> appTargets == old(appTargets)
      ensures !isLoading && tones == old(tones)
    {
      isLoading := true;
      if listed.Some? {
        appTargets := ById(listed.value, TargetId);
      }
      isLoading := false;
    }

    /** `loadTones`. */
    method LoadTones(listed: Option<seq<Tone>>)
      modifies this
      ensures listed.Some? ==> tones == ById(listed.value, ToneId)
      ensures listed.None? ==> tones == old(tones)
      ensures appTargets == old(appTargets) && isLoading == old(isLoading)
    {
      if listed.Some? {
        tones := ById(listed.value, ToneId);
      }
    }

    /** `registerCurrentApp`: the main process answers with the target of
        the focused app, or none; the target is stored under its id and
        returned. */
    method RegisterCurrentApp(answer: Option<Option<AppTarget>>) returns (r: Option<AppTarget>)
      modifies this
      ensures r == (if answer.Some? then answer.value else None)
      ensures r.Some? ==> appTargets == old(appTargets)[r.value.id := r.value]
      ensures r.None? ==> appTargets == old(appTargets)
      ensures tones == old(tones) && isLoading == old(isLoading)
    {
      r := if answer.Some? then answer.value else None;
      if r.Some? {
        appTargets := appTargets[r.value.id := r.value];
      }
    }

    /** `updateAppTone`: after a successful call, a known target takes the
        tone; an unknown id changes nothing. */
    method UpdateAppTone(appId: string, toneId: Option<string>, succeeded: bool)
      modifies this
      ensures succeeded && appId in old(appTargets) ==>
        appTargets == old(appTargets)[appId := old(appTargets)[appId].(toneId := toneId)]
      ensures !succeeded || appId !in old(appTargets) ==> appTargets == old(appTargets)
      ensures tones == old(tones) && isLoading == old(isLoading)
    {
      if succeeded && appId in appTargets {
        appTargets := appTargets[appId := appTargets[appId].(toneId := toneId)];
      }
    }

    /** `deleteAppTarget`: after a successful call that key is gone. */
    method DeleteAppTarget(appId: string, succeeded: bool)
      modifies this
      ensures succeeded ==> appTargets == old(appTargets) - {appId}
      ensures !succeeded ==> appTargets == old(appTargets)
      ensures tones == old(tones) && isLoading == old(isLoading)
    {
      if succeeded {
        appTargets := appTargets - {appId};
      }
    }
  }

  /** Changing a target's tone touches no other target and no other
      field of that target. */
  lemma ToneUpdateIsLocal(m: map<string, AppTarget>, appId: string, toneId: Option<string>)
    requires appId in m
    ensures var r := m[appId := m[appId].(toneId := toneId)];
      && r.Keys == m.Keys
      && (forall k :: k in m && k != appId ==> r[k] == m[k])
      && r[appId].(toneId := m[appId].toneId) == m[appId]
  {
  }

  /** Registering a target that was not listed and deleting it leaves
      the other targets as they were. */
  lemma DeleteUndoesRegister(m: map<string, AppTarget>, t: AppTarget)
    requires t.id !in m
    ensures m[t.id := t] - {t.id} == m
  {
  }
}
