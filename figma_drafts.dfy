/**
 * The drafts panel (`FigmaDrafts` in `figma-drafts.tsx`): the list shown is
 * the user's own files followed by the API's drafts that are not among them;
 * it is refreshed by fetches, by the user-files effect and by an auto-sync
 * interval of which at most one is ever live.
 */
module FigmaDrafts {
  import opened Wrappers
  import opened Drafts

  // ----- the combined list -----

  /** The user's files as shown: each with its project label defaulted. */
  function UserOnly(userFiles: seq<Draft>): (r: seq<Draft>)
    ensures |r| == |userFiles|
    ensures forall i :: 0 <= i < |r| ==>
              Truthy(r[i].projectName) && r[i].(projectName := userFiles[i].projectName) == userFiles[i]
    ensures forall i :: 0 <= i < |r| ==>
              r[i].projectName == (if Truthy(userFiles[i].projectName) then userFiles[i].projectName else Some(DEFAULT_PROJECT))
  {
    seq(|userFiles|, i requires 0 <= i < |userFiles| => WithDefaultProject(userFiles[i]))
  }

  lemma UserOnlyKeys(userFiles: seq<Draft>)
    ensures KeySet(UserOnly(userFiles)) == KeySet(userFiles)
    ensures UniqueKeys(userFiles) ==> UniqueKeys(UserOnly(userFiles))
  {
    var r := UserOnly(userFiles);
    forall k | k in KeySet(userFiles) ensures k in KeySet(r) {
      var d :| d in userFiles && d.key == k;
      var i :| 0 <= i < |userFiles| && userFiles[i] == d;
      assert r[i] in r;
    }
    forall k | k in KeySet(r) ensures k in KeySet(userFiles) {
      var d :| d in r && d.key == k;
      var i :| 0 <= i < |r| && r[i] == d;
      assert userFiles[i] in userFiles;
    }
  }

  /** `combinedDrafts`: the user's files, then the API drafts whose key no user file has. */
  function Combine(userFiles: seq<Draft>, apiDrafts: seq<Draft>): seq<Draft> {
    UserOnly(userFiles) + DropKeys(apiDrafts, KeySet(userFiles))
  }

  /** The combined list is the "append what is new" merge of the labelled user files and the API drafts. */
  lemma CombineIsAppendNew(userFiles: seq<Draft>, apiDrafts: seq<Draft>)
    ensures Combine(userFiles, apiDrafts) == AppendNew(UserOnly(userFiles), apiDrafts)
  {
    UserOnlyKeys(userFiles);
  }

  /**
   * What the combined list holds: the labelled user files first, in order;
   * after them only API drafts with a key no user file has, so a key held by
   * both appears once, as the user's version; every key of either input.
   */
  lemma CombineProperties(userFiles: seq<Draft>, apiDrafts: seq<Draft>)
    ensures var c := Combine(userFiles, apiDrafts);
            |c| >= |userFiles| && c[..|userFiles|] == UserOnly(userFiles)
            && (forall i :: |userFiles| <= i < |c| ==> c[i] in apiDrafts && c[i].key !in KeySet(userFiles))
            && KeySet(c) == KeySet(userFiles) + KeySet(apiDrafts)
            && (forall d :: d in apiDrafts && d.key !in KeySet(userFiles) ==> d in c)
  {
    var c := Combine(userFiles, apiDrafts);
    var tail := DropKeys(apiDrafts, KeySet(userFiles));
    DropKeysMembers(apiDrafts, KeySet(userFiles));
    CombineIsAppendNew(userFiles, apiDrafts);
    UserOnlyKeys(userFiles);
    AppendNewKeys(UserOnly(userFiles), apiDrafts);
    forall i | |userFiles| <= i < |c| ensures c[i] in apiDrafts && c[i].key !in KeySet(userFiles) {
      assert c[i] == tail[i - |userFiles|];
      assert c[i] in tail;
    }
  }

  /** Two lists without duplicate keys combine into a list without duplicate keys. */
  lemma CombineUnique(userFiles: seq<Draft>, apiDrafts: seq<Draft>)
    requires UniqueKeys(userFiles) && UniqueKeys(apiDrafts)
    ensures UniqueKeys(Combine(userFiles, apiDrafts))
  {
    UserOnlyKeys(userFiles);
    CombineIsAppendNew(userFiles, apiDrafts);
    AppendNewUnique(UserOnly(userFiles), apiDrafts);
  }

  /** With no API drafts the combined list is the user-files-only list the token-less paths show. */
  lemma CombineWithoutApi(userFiles: seq<Draft>)
    ensures Combine(userFiles, []) == UserOnly(userFiles)
  {
    assert DropKeys([], KeySet(userFiles)) == [];
  }

  // ----- requests and their outcomes -----

  /** The request headers: the JSON content type, plus `x-figma-token` exactly when the token is truthy. */
  function RequestHeaders(token: Option<string>): (r: map<string, string>)
    ensures "Content-Type" in r && r["Content-Type"] == "application/json"
    ensures "x-figma-token" in r <==> Truthy(token)
    ensures "x-figma-token" in r ==> r["x-figma-token"] == token.value
    ensures forall h :: h in r ==> h == "Content-Type" || h == "x-figma-token"
  {
    var base := map["Content-Type" := "application/json"];
    if Truthy(token) then base["x-figma-token" := token.value] else base
  }

  /**
   * How a drafts request ends: a successful reply (its `drafts` field, if
   * any), an error reply (its `error` field, if any), or an exception (its
   * message when it is an `Error`).
   */
  datatype FetchOutcome =
    | Fetched(drafts: Option<seq<Draft>>)
    | Rejected(dataError: Option<string>)
    | Threw(message: Option<string>)

  const LOAD_ERROR: string := "Error al cargar los drafts"
  const UNKNOWN_ERROR: string := "Error desconocido"

  /** The error text a failed fetch shows. */
  function FailureMessage(o: FetchOutcome): (r: string)
    requires !o.Fetched?
    ensures o.Rejected? && !Truthy(o.dataError) ==> r == LOAD_ERROR
    ensures o.Rejected? && Truthy(o.dataError) ==> r == o.dataError.value
    ensures o.Threw? ==> r == o.message.GetOr(UNKNOWN_ERROR)
  {
    match o
    case Rejected(e) => if Truthy(e) then e.value else LOAD_ERROR
    case Threw(m) => m.GetOr(UNKNOWN_ERROR)
  }

  // ----- what the effects do -----

  datatype Plan = Wait | FetchFromApi | ShowUserFilesOnly

  /** The user-files effect: once user files are loaded, fetch when a token is usable, otherwise show the user files alone. */
  function UserFilesPlan(userFilesLoading: bool, hasToken: bool, tokenLoading: bool): (r: Plan)
    ensures r == Wait <==> userFilesLoading
    ensures r == FetchFromApi <==> !userFilesLoading && hasToken && !tokenLoading
  {
    if userFilesLoading then Wait
    else if hasToken && !tokenLoading then FetchFromApi
    else ShowUserFilesOnly
  }

  /** The initial-load effect, in its own form. */
  function InitialPlan(userFilesLoading: bool, hasToken: bool, tokenLoading: bool): Plan {
    if !userFilesLoading && !tokenLoading && hasToken then FetchFromApi
    else if !userFilesLoading && (!hasToken || tokenLoading) then ShowUserFilesOnly
    else Wait
  }

  /** The initial-load effect and the user-files effect always decide alike. */
  lemma InitialPlanAgrees(userFilesLoading: bool, hasToken: bool, tokenLoading: bool)
    ensures InitialPlan(userFilesLoading, hasToken, tokenLoading) == UserFilesPlan(userFilesLoading, hasToken, tokenLoading)
  {
  }

  // ----- the component's state -----

  class DraftsView {
    var drafts: seq<Draft>
    var loading: bool
    var error: Option<string>
    /** The time of the last successful sync, in milliseconds. */
    var lastSyncTime: Option<int>
    var autoSyncEnabled: bool
    /** `autoSyncRef.current`: the handle of the interval last set, if any. */
    var autoSync: Option<nat>
    /** `mountedRef.current` */
    var mounted: bool
    /** The intervals the browser is running for this component. */
    var liveTimers: set<nat>
    /** The handle the next `setInterval` returns. */
    var nextTimer: nat

    /** At most one interval is live, and it is the one the handle names. */
    ghost predicate Valid()
      reads this
    {
      (autoSync.None? ==> liveTimers == {})
      && (autoSync.Some? ==> liveTimers <= {autoSync.value} && autoSync.value < nextTimer)
    }

    constructor()
      ensures Valid()
      ensures drafts == [] && loading && error.None? && lastSyncTime.None? && autoSyncEnabled
      ensures autoSync.None? && mounted && liveTimers == {}
    {
      drafts := [];
      loading := true;
      error := None;
      lastSyncTime := None;
      autoSyncEnabled := true;
      autoSync := None;
      mounted := true;
      liveTimers := {};
      nextTimer := 0;
    }

    /**
     * `startAutoSync`: any interval already set is cleared first; a new one
     * is set only when auto-sync is enabled and a token is usable. The handle
     * of a cleared interval is not reset, so it may name a dead interval.
     */
    method StartAutoSync(hasToken: bool, tokenLoading: bool)
      requires Valid()
      modifies this
      ensures Valid()
      ensures |liveTimers| <= 1
      ensures old(autoSync).Some? ==> old(autoSync).value !in liveTimers
      ensures autoSyncEnabled && hasToken && !tokenLoading ==>
                autoSync == Some(old(nextTimer)) && autoSync.value !in old(liveTimers) && liveTimers == {autoSync.value}
      ensures !(autoSyncEnabled && hasToken && !tokenLoading) ==> liveTimers == {} && autoSync == old(autoSync)
      ensures nextTimer == if autoSyncEnabled && hasToken && !tokenLoading then old(nextTimer) + 1 else old(nextTimer)
      ensures drafts == old(drafts) && loading == old(loading) && error == old(error) && lastSyncTime == old(lastSyncTime)
      ensures autoSyncEnabled == old(autoSyncEnabled) && mounted == old(mounted)
    {
      if autoSync.Some? {
        liveTimers := liveTimers - {autoSync.value};
      }
      if autoSyncEnabled && hasToken && !tokenLoading {
        var handle := nextTimer;
        nextTimer := nextTimer + 1;
        liveTimers := liveTimers + {handle};
        autoSync := Some(handle);
      }
    }

    /** `stopAutoSync`: the interval cleared and the handle reset. */
    method StopAutoSync()
      requires Valid()
      modifies this
      ensures Valid()
      ensures autoSync.None? && liveTimers == {}
      ensures drafts == old(drafts) && loading == old(loading) && error == old(error) && lastSyncTime == old(lastSyncTime)
      ensures autoSyncEnabled == old(autoSyncEnabled) && mounted == old(mounted) && nextTimer == old(nextTimer)
    {
      if autoSync.Some? {
        liveTimers := liveTimers - {autoSync.value};
        autoSync := None;
      }
    }

    /**
     * `toggleAutoSync`: only the switch flips. The intervals change when the
     * auto-sync effect runs again (`RerunAutoSyncEffect`), since the toggle
     * gives `startAutoSync` a new identity.
     */
    method ToggleAutoSync()
      requires Valid()
      modifies this
      ensures Valid()
      ensures autoSyncEnabled == !old(autoSyncEnabled)
      ensures drafts == old(drafts) && loading == old(loading) && error == old(error) && lastSyncTime == old(lastSyncTime)
      ensures mounted == old(mounted) && autoSync == old(autoSync) && liveTimers == old(liveTimers)
      ensures nextTimer == old(nextTimer)
    {
      autoSyncEnabled := !autoSyncEnabled;
    }

    /**
     * The auto-sync effect run again after one of its inputs changed: the
     * previous run's cleanup stops auto-sync, then it is started again when
     * the user files and the token are ready.
     */
    method RerunAutoSyncEffect(userFilesLoading: bool, hasToken: bool, tokenLoading: bool)
      requires Valid()
      modifies this
      ensures Valid()
      ensures |liveTimers| <= 1
      ensures liveTimers != {} <==> !userFilesLoading && !tokenLoading && hasToken && autoSyncEnabled
      ensures liveTimers != {} ==> autoSync.Some? && liveTimers == {autoSync.value} && autoSync.value !in old(liveTimers)
      ensures liveTimers == {} ==> autoSync.None? && nextTimer == old(nextTimer)
      ensures liveTimers != {} ==> autoSync == Some(old(nextTimer)) && nextTimer == old(nextTimer) + 1
      ensures drafts == old(drafts) && loading == old(loading) && error == old(error) && lastSyncTime == old(lastSyncTime)
      ensures autoSyncEnabled == old(autoSyncEnabled) && mounted == old(mounted)
    {
      StopAutoSync();
      if !userFilesLoading && !tokenLoading && hasToken {
        StartAutoSync(hasToken, tokenLoading);
      }
    }

    /** The cleanup on unmount: later fetch results are ignored, and no interval is left running. */
    method Unmount()
      requires Valid()
      modifies this
      ensures Valid()
      ensures !mounted && autoSync.None? && liveTimers == {}
      ensures drafts == old(drafts) && loading == old(loading) && error == old(error) && lastSyncTime == old(lastSyncTime)
      ensures autoSyncEnabled == old(autoSyncEnabled) && nextTimer == old(nextTimer)
    {
      mounted := false;
      StopAutoSync();
    }

    /** The start of `fetchDrafts`: the spinner only when asked for, and the error cleared. */
    method BeginFetch(showLoading: bool)
      modifies this
      ensures loading == (showLoading || old(loading))
      ensures error.None?
      ensures drafts == old(drafts) && lastSyncTime == old(lastSyncTime)
      ensures mounted == old(mounted) && autoSync == old(autoSync) && liveTimers == old(liveTimers)
      ensures nextTimer == old(nextTimer) && autoSyncEnabled == old(autoSyncEnabled)
    {
      if showLoading {
        loading := true;
      }
      error := None;
    }

    /**
     * The end of `fetchDrafts`. A success shows the combined list and
     * records the sync time; a failure shows its message. Once unmounted,
     * nothing is updated.
     */
    method CompleteFetch(userFiles: seq<Draft>, outcome: FetchOutcome, showLoading: bool, now: int)
      modifies this
      ensures !old(mounted) ==> drafts == old(drafts) && loading == old(loading)
                                && error == old(error) && lastSyncTime == old(lastSyncTime)
      ensures old(mounted) && outcome.Fetched? ==>
                drafts == Combine(userFiles, outcome.drafts.GetOr([])) && lastSyncTime == Some(now)
                && error == old(error)
      ensures old(mounted) && !outcome.Fetched? ==>
                drafts == old(drafts) && lastSyncTime == old(lastSyncTime) && error == Some(FailureMessage(outcome))
      ensures loading == (if old(mounted) && showLoading then false else old(loading))
      ensures mounted == old(mounted) && autoSync == old(autoSync) && liveTimers == old(liveTimers)
      ensures nextTimer == old(nextTimer) && autoSyncEnabled == old(autoSyncEnabled)
    {
      if outcome.Fetched? {
        if mounted {
          drafts := Combine(userFiles, outcome.drafts.GetOr([]));
          lastSyncTime := Some(now);
        }
      } else if mounted {
        error := Some(FailureMessage(outcome));
      }
      if mounted && showLoading {
        loading := false;
      }
    }

    /**
     * The token-less paths of the effects: the list is exactly the user's
     * files with the default project label; the initial-load effect also
     * ends loading (`endLoading`).
     */
    method ShowUserFiles(userFiles: seq<Draft>, endLoading: bool)
      modifies this
      ensures drafts == UserOnly(userFiles)
      ensures KeySet(drafts) == KeySet(userFiles)
      ensures loading == (if endLoading then false else old(loading))
      ensures error == old(error) && lastSyncTime == old(lastSyncTime)
      ensures mounted == old(mounted) && autoSync == old(autoSync) && liveTimers == old(liveTimers)
      ensures nextTimer == old(nextTimer) && autoSyncEnabled == old(autoSyncEnabled)
    {
      UserOnlyKeys(userFiles);
      drafts := UserOnly(userFiles);
      if endLoading {
        loading := false;
      }
    }

    /**
     * `testRecentFiles` after a successful reply: the recent files whose key
     * is not shown yet are appended after the shown ones; when there are none
     * nothing changes but the cleared error.
     */
    method AppendRecent(recentFiles: seq<Draft>, now: int)
      modifies this
      ensures drafts == AppendNew(old(drafts), recentFiles)
      ensures KeySet(recentFiles) <= KeySet(old(drafts)) ==> drafts == old(drafts) && lastSyncTime == old(lastSyncTime)
      ensures !(KeySet(recentFiles) <= KeySet(old(drafts))) ==> |drafts| > |old(drafts)| && lastSyncTime == Some(now)
      ensures UniqueKeys(old(drafts)) && UniqueKeys(recentFiles) ==> UniqueKeys(drafts)
      ensures error.None? && loading == old(loading)
      ensures mounted == old(mounted) && autoSync == old(autoSync) && liveTimers == old(liveTimers)
      ensures nextTimer == old(nextTimer) && autoSyncEnabled == old(autoSyncEnabled)
    {
      error := None;
      var newFiles := DropKeys(recentFiles, KeySet(drafts));
      DropKeysKeySet(recentFiles, KeySet(drafts));
      if KeySet(recentFiles) <= KeySet(drafts) {
        DropKeysAll(recentFiles, KeySet(drafts));
      } else {
        var k :| k in KeySet(recentFiles) && k !in KeySet(drafts);
        assert k in KeySet(newFiles);
        var d :| d in newFiles && d.key == k;
      }
      if UniqueKeys(drafts) && UniqueKeys(recentFiles) {
        AppendNewUnique(drafts, recentFiles);
      }
      if |newFiles| > 0 {
        drafts := drafts + newFiles;
        lastSyncTime := Some(now);
      }
    }
  }

  /** Starting auto-sync twice in a row still leaves a single live interval: the first one is cleared. */
  method RestartLeavesOneInterval(view: DraftsView, hasToken: bool, tokenLoading: bool)
    requires view.Valid()
    modifies view
    ensures view.Valid() && |view.liveTimers| <= 1
  {
    view.StartAutoSync(hasToken, tokenLoading);
    view.StartAutoSync(hasToken, tokenLoading);
  }

  /**
   * A toggle followed by the effect it triggers: at most one interval is
   * live, and one is exactly when auto-sync was off before the toggle and
   * the user files and the token are ready.
   */
  method ToggleRestartsAutoSync(view: DraftsView, userFilesLoading: bool, hasToken: bool, tokenLoading: bool)
    requires view.Valid()
    modifies view
    ensures view.Valid() && |view.liveTimers| <= 1
    ensures view.liveTimers != {} <==> !old(view.autoSyncEnabled) && !userFilesLoading && !tokenLoading && hasToken
  {
    view.ToggleAutoSync();
    view.RerunAutoSyncEffect(userFilesLoading, hasToken, tokenLoading);
  }
}
