/**
 * The file reference (`FigmaDraft`) and the list operations that every part
 * of the dashboard repeats: look a key up, drop entries by key, prepend an
 * entry unless its key is present, and append the entries of a second list
 * whose keys the first list does not have.
 */
module Drafts {
  import opened Wrappers

  /** One reference to a remote design file. */
  datatype Draft = Draft(
    key: string,
    name: string,
    thumbnailUrl: Option<string>,
    lastModified: string,
    role: string,
    projectId: Option<string>,
    projectName: Option<string>)

  /** The catch-all project label given to entries that have none. */
  const DEFAULT_PROJECT: string := "Mis Archivos"

  /** JavaScript truthiness of an optional string: present and not empty. */
  predicate Truthy(o: Option<string>) { o.Some? && o.value != "" }

  /** `{ ...d, project_name: d.project_name || "Mis Archivos" }` */
  function WithDefaultProject(d: Draft): (r: Draft)
    ensures Truthy(r.projectName)
    ensures r.(projectName := d.projectName) == d
    ensures Truthy(d.projectName) ==> r == d
    ensures !Truthy(d.projectName) ==> r.projectName == Some(DEFAULT_PROJECT)
  {
    d.(projectName := if Truthy(d.projectName) then d.projectName else Some(DEFAULT_PROJECT))
  }

  /** The keys present in a list. */
  function KeySet(s: seq<Draft>): set<string> {
    set d | d in s :: d.key
  }

  /** No key appears twice. */
  predicate UniqueKeys(s: seq<Draft>) {
    forall i, j :: 0 <= i < j < |s| ==> s[i].key != s[j].key
  }

  lemma KeySetCons(d: Draft, s: seq<Draft>)
    ensures KeySet([d] + s) == {d.key} + KeySet(s)
  {
    assert forall x :: x in [d] + s <==> x == d || x in s;
  }

  lemma KeySetAppend(a: seq<Draft>, b: seq<Draft>)
    ensures KeySet(a + b) == KeySet(a) + KeySet(b)
  {
    assert forall x :: x in a + b <==> x in a || x in b;
  }

  /** `s.filter(d => !ks.has(d.key))`: every entry whose key is in `ks` removed, the rest kept in order. */
  function DropKeys(s: seq<Draft>, ks: set<string>): (r: seq<Draft>)
    ensures |r| <= |s|
  {
    if s == [] then []
    else if s[0].key in ks then DropKeys(s[1..], ks)
    else [s[0]] + DropKeys(s[1..], ks)
  }

  /** The entries kept are exactly those whose key is not dropped. */
  lemma {:induction false} DropKeysMembers(s: seq<Draft>, ks: set<string>)
    ensures forall d :: d in DropKeys(s, ks) <==> d in s && d.key !in ks
  {
    if s != [] {
      DropKeysMembers(s[1..], ks);
      assert forall d :: d in s <==> d == s[0] || d in s[1..];
    }
  }

  lemma DropKeysKeySet(s: seq<Draft>, ks: set<string>)
    ensures KeySet(DropKeys(s, ks)) == KeySet(s) - ks
  {
    var r := DropKeys(s, ks);
    DropKeysMembers(s, ks);
    forall x | x in KeySet(s) - ks ensures x in KeySet(r) {
      var d :| d in s && d.key == x;
      assert d in r;
    }
  }

  /** Nothing is dropped when no key is in `ks`. */
  lemma {:induction false} DropKeysNone(s: seq<Draft>, ks: set<string>)
    requires KeySet(s) !! ks
    ensures DropKeys(s, ks) == s
  {
    if s != [] {
      assert s[0] in s;
      assert KeySet(s[1..]) <= KeySet(s) by {
        forall x | x in KeySet(s[1..]) ensures x in KeySet(s) {
          var d :| d in s[1..] && d.key == x;
          assert d in s;
        }
      }
      DropKeysNone(s[1..], ks);
    }
  }

  /** Everything is dropped when every key is in `ks`. */
  lemma DropKeysAll(s: seq<Draft>, ks: set<string>)
    requires KeySet(s) <= ks
    ensures DropKeys(s, ks) == []
  {
  }

  /** The list gets shorter exactly when one of its keys is in `ks`. */
  lemma {:induction false} DropKeysShorter(s: seq<Draft>, ks: set<string>)
    ensures |DropKeys(s, ks)| < |s| <==> !(KeySet(s) !! ks)
  {
    if s != [] {
      KeySetCons(s[0], s[1..]);
      assert s == [s[0]] + s[1..];
      DropKeysShorter(s[1..], ks);
    }
  }

  /** `s.filter(d => d.key !== k)` */
  function RemoveKey(s: seq<Draft>, k: string): (r: seq<Draft>)
    ensures forall d :: d in r <==> d in s && d.key != k
    ensures k !in KeySet(r)
    ensures |r| < |s| <==> k in KeySet(s)
  {
    DropKeysMembers(s, {k});
    DropKeysKeySet(s, {k});
    DropKeysShorter(s, {k});
    DropKeys(s, {k})
  }

  /** Dropping keys keeps the surviving entries in their original order. */
  lemma {:induction false} DropKeysAppend(a: seq<Draft>, b: seq<Draft>, ks: set<string>)
    ensures DropKeys(a + b, ks) == DropKeys(a, ks) + DropKeys(b, ks)
  {
    if a == [] {
      assert a + b == b;
    } else {
      var h := a[0];
      assert (a + b)[0] == h;
      assert (a + b)[1..] == a[1..] + b;
      DropKeysAppend(a[1..], b, ks);
      if h.key in ks {
        assert DropKeys(a + b, ks) == DropKeys(a[1..] + b, ks);
        assert DropKeys(a, ks) == DropKeys(a[1..], ks);
      } else {
        assert DropKeys(a + b, ks) == [h] + DropKeys(a[1..] + b, ks);
        assert DropKeys(a, ks) == [h] + DropKeys(a[1..], ks);
      }
    }
  }

  lemma UniqueCons(d: Draft, s: seq<Draft>)
    ensures UniqueKeys([d] + s) <==> d.key !in KeySet(s) && UniqueKeys(s)
  {
    var t := [d] + s;
    if UniqueKeys(t) {
      forall i, j | 0 <= i < j < |s| ensures s[i].key != s[j].key {
        assert t[i + 1] == s[i] && t[j + 1] == s[j];
      }
      forall x | x in s ensures x.key != d.key {
        var j :| 0 <= j < |s| && s[j] == x;
        assert t[0] == d && t[j + 1] == x;
      }
    }
    if d.key !in KeySet(s) && UniqueKeys(s) {
      forall i, j | 0 <= i < j < |t| ensures t[i].key != t[j].key {
        assert t[j] == s[j - 1] && t[j] in s;
        if i > 0 {
          assert t[i] == s[i - 1];
        }
      }
    }
  }

  /** Filtering never introduces a duplicate key. */
  lemma {:induction false} DropKeysUnique(s: seq<Draft>, ks: set<string>)
    requires UniqueKeys(s)
    ensures UniqueKeys(DropKeys(s, ks))
  {
    if s != [] {
      assert s == [s[0]] + s[1..];
      UniqueCons(s[0], s[1..]);
      DropKeysUnique(s[1..], ks);
      DropKeysKeySet(s[1..], ks);
      if s[0].key !in ks {
        UniqueCons(s[0], DropKeys(s[1..], ks));
      }
    }
  }

  lemma UniqueAppend(a: seq<Draft>, b: seq<Draft>)
    requires UniqueKeys(a) && UniqueKeys(b) && KeySet(a) !! KeySet(b)
    ensures UniqueKeys(a + b)
  {
    var t := a + b;
    forall i, j | 0 <= i < j < |t| ensures t[i].key != t[j].key {
      if j < |a| {
        assert t[i] == a[i] && t[j] == a[j];
      } else if i >= |a| {
        assert t[i] == b[i - |a|] && t[j] == b[j - |a|];
      } else {
        assert t[i] == a[i] && t[j] == b[j - |a|];
        assert t[i].key in KeySet(a) && t[j].key in KeySet(b);
      }
    }
  }

  /** The updater of an add: `prev.some(d => d.key === x.key) ? prev : [x, ...prev]`. */
  function PrependNew(s: seq<Draft>, d: Draft): (r: seq<Draft>)
    ensures KeySet(r) == KeySet(s) + {d.key}
    ensures |r| == if d.key in KeySet(s) then |s| else |s| + 1
  {
    KeySetCons(d, s);
    if d.key in KeySet(s) then s else [d] + s
  }

  /** Adding twice is adding once. */
  lemma PrependNewIdempotent(s: seq<Draft>, d: Draft)
    ensures PrependNew(PrependNew(s, d), d) == PrependNew(s, d)
  {
  }

  /** Adding keeps the keys unique. */
  lemma PrependNewUnique(s: seq<Draft>, d: Draft)
    requires UniqueKeys(s)
    ensures UniqueKeys(PrependNew(s, d))
  {
    if d.key !in KeySet(s) {
      UniqueCons(d, s);
    }
  }

  /** `[...base, ...extra.filter(e => !base.some(b => b.key === e.key))]` */
  function AppendNew(base: seq<Draft>, extra: seq<Draft>): seq<Draft> {
    base + DropKeys(extra, KeySet(base))
  }

  /** The appended list holds every key of either input. */
  lemma AppendNewKeys(base: seq<Draft>, extra: seq<Draft>)
    ensures KeySet(AppendNew(base, extra)) == KeySet(base) + KeySet(extra)
  {
    DropKeysKeySet(extra, KeySet(base));
    KeySetAppend(base, DropKeys(extra, KeySet(base)));
  }

  /** Entries after the base never repeat a base key: on a shared key the base entry wins. */
  lemma AppendNewBaseWins(base: seq<Draft>, extra: seq<Draft>)
    ensures forall i :: |base| <= i < |AppendNew(base, extra)| ==>
              AppendNew(base, extra)[i].key !in KeySet(base)
  {
    var tail := DropKeys(extra, KeySet(base));
    DropKeysMembers(extra, KeySet(base));
    forall i | |base| <= i < |AppendNew(base, extra)|
      ensures AppendNew(base, extra)[i].key !in KeySet(base)
    {
      assert AppendNew(base, extra)[i] == tail[i - |base|];
      assert tail[i - |base|] in tail;
    }
  }

  /** Two lists without duplicate keys combine into one without duplicate keys. */
  lemma AppendNewUnique(base: seq<Draft>, extra: seq<Draft>)
    requires UniqueKeys(base) && UniqueKeys(extra)
    ensures UniqueKeys(AppendNew(base, extra))
  {
    DropKeysUnique(extra, KeySet(base));
    DropKeysKeySet(extra, KeySet(base));
    UniqueAppend(base, DropKeys(extra, KeySet(base)));
  }

  /**
   * Merging is idempotent both ways: merging the same second list into the
   * result again changes nothing, and neither does merging the result into
   * the base again.
   */
  lemma AppendNewIdempotent(base: seq<Draft>, extra: seq<Draft>)
    ensures AppendNew(AppendNew(base, extra), extra) == AppendNew(base, extra)
    ensures AppendNew(base, AppendNew(base, extra)) == AppendNew(base, extra)
  {
    AppendNewKeys(base, extra);
    AppendNewNothingNew(AppendNew(base, extra), extra);
    var ks := KeySet(base);
    var tail := DropKeys(extra, ks);
    DropKeysAppend(base, tail, ks);
    DropKeysAll(base, ks);
    DropKeysKeySet(extra, ks);
    DropKeysNone(tail, ks);
    assert AppendNew(base, extra) == base + tail;
    assert DropKeys(base + tail, ks) == tail;
  }

  /** Nothing is appended when every key of the second list is already present. */
  lemma AppendNewNothingNew(base: seq<Draft>, extra: seq<Draft>)
    requires KeySet(extra) <= KeySet(base)
    ensures AppendNew(base, extra) == base
  {
    DropKeysAll(extra, KeySet(base));
  }

  /** Onto an empty list the second list is taken whole, duplicates included. */
  lemma AppendNewOntoEmpty(extra: seq<Draft>)
    ensures AppendNew([], extra) == extra
  {
    DropKeysNone(extra, KeySet([]));
  }
}
