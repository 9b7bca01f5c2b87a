/**
 * The per-view selection state of the detail view: the Q-item flag map
 * `selectedQItems` (App.jsx:28, 844, 857-860, 1004) and the trait list
 * `selectedTraits` (App.jsx:26, 114-120), plus the student record they are
 * read against.
 */
module Selection {

  /** A student row as the loader hands it over: field name and value pairs in
      the order `Object.entries` lists them. */
  type Student = seq<(string, string)>

  /** `student[name] || ""`: the value of the first field called `name`, and the
      empty string when there is none. A record from the loader has distinct
      field names, so the first such field is the only one. */
  function FieldValue(st: Student, name: string): (v: string)
    ensures (forall i :: 0 <= i < |st| ==> st[i].0 != name) ==> v == ""
    ensures v != "" ==> (name, v) in st
    ensures forall i ::
              0 <= i < |st| && st[i].0 == name && (forall j :: 0 <= j < i ==> st[j].0 != name) ==> v == st[i].1
  {
    if st == [] then ""
    else if st[0].0 == name then st[0].1
    else FieldValue(st[1..], name)
  }

  /** `k.startsWith("Q")`. */
  predicate IsQKey(k: string) {
    |k| > 0 && k[0] == 'Q'
  }

  /** `selectedQItems[k] === true`: a missing key means "not selected". */
  predicate IsSelected(flags: map<string, bool>, k: string) {
    k in flags && flags[k]
  }

  /** The Q-prefixed fields whose flag is exactly `true`, in record order
      (`qEntries.filter(([k]) => selectedQItems[k] === true)`). */
  function SelectedEntries(st: Student, flags: map<string, bool>): (r: seq<(string, string)>)
    ensures |r| <= |st|
    ensures forall e :: e in r <==> e in st && IsQKey(e.0) && IsSelected(flags, e.0)
  {
    if st == [] then []
    else if IsQKey(st[0].0) && IsSelected(flags, st[0].0) then [st[0]] + SelectedEntries(st[1..], flags)
    else SelectedEntries(st[1..], flags)
  }

  /** Selection distributes over concatenation: the entries keep record order. */
  lemma {:induction false} SelectedEntriesAppend(a: Student, b: Student, flags: map<string, bool>)
    ensures SelectedEntries(a + b, flags) == SelectedEntries(a, flags) + SelectedEntries(b, flags)
  {
    if a == [] {
      assert a + b == b;
    } else {
      assert (a + b)[1..] == a[1..] + b;
      SelectedEntriesAppend(a[1..], b, flags);
    }
  }

  /** Nothing is taken when no flag is set, whatever the record holds. */
  lemma {:induction false} NothingSelectedByDefault(st: Student)
    ensures SelectedEntries(st, map[]) == []
  {
    if st != [] {
      NothingSelectedByDefault(st[1..]);
    }
  }

  /** The Q-item click handler: `[k]: prev[k] === true ? false : true`. */
  function ToggleQ(flags: map<string, bool>, k: string): (r: map<string, bool>)
    ensures IsSelected(r, k) <==> !IsSelected(flags, k)
    ensures r.Keys == flags.Keys + {k}
    ensures forall k' :: k' != k && k' in flags ==> r[k'] == flags[k']
  {
    flags[k := !IsSelected(flags, k)]
  }

  /** Two clicks on the same item give back the same selection (a missing key
      may have become an explicit `false`). */
  lemma ToggleQTwice(flags: map<string, bool>, k: string, k': string)
    ensures IsSelected(ToggleQ(ToggleQ(flags, k), k), k') == IsSelected(flags, k')
  {
  }

  /** Clicking a Q item of the record adds it to, or removes it from, what
      generation takes, and leaves every other entry as it was. */
  lemma ToggleQEffect(st: Student, flags: map<string, bool>, k: string, e: (string, string))
    requires e in st && IsQKey(e.0)
    ensures e.0 == k ==> (e in SelectedEntries(st, ToggleQ(flags, k)) <==> e !in SelectedEntries(st, flags))
    ensures e.0 != k ==> (e in SelectedEntries(st, ToggleQ(flags, k)) <==> e in SelectedEntries(st, flags))
  {
  }

  predicate NoDuplicates(ts: seq<string>) {
    forall i, j :: 0 <= i < j < |ts| ==> ts[i] != ts[j]
  }

  /** `prev.filter(t => t !== trait)`. */
  function WithoutTrait(ts: seq<string>, t: string): (r: seq<string>)
    ensures |r| <= |ts|
    ensures forall u :: u in r <==> u in ts && u != t
  {
    if ts == [] then []
    else if ts[0] == t then WithoutTrait(ts[1..], t)
    else [ts[0]] + WithoutTrait(ts[1..], t)
  }

  lemma {:induction false} WithoutAbsentTrait(ts: seq<string>, t: string)
    requires t !in ts
    ensures WithoutTrait(ts, t) == ts
  {
    if ts != [] {
      WithoutAbsentTrait(ts[1..], t);
    }
  }

  lemma {:induction false} WithoutTraitNoDuplicates(ts: seq<string>, t: string)
    requires NoDuplicates(ts)
    ensures NoDuplicates(WithoutTrait(ts, t))
  {
    if ts != [] {
      WithoutTraitNoDuplicates(ts[1..], t);
      if ts[0] != t {
        var r := WithoutTrait(ts, t);
        forall j | 1 <= j < |r| ensures r[0] != r[j] {
          assert r[j] in WithoutTrait(ts[1..], t);
          assert r[j] in ts[1..];
        }
      }
    }
  }

  /** `toggleTrait`: a selected trait is removed, an unselected one is appended. */
  function ToggleTrait(ts: seq<string>, t: string): (r: seq<string>)
    ensures t in r <==> t !in ts
    ensures forall u :: u != t ==> (u in r <==> u in ts)
    ensures t !in ts ==> r == ts + [t]
  {
    if t in ts then WithoutTrait(ts, t) else ts + [t]
  }

  /** Toggling never creates duplicates. */
  lemma ToggleTraitNoDuplicates(ts: seq<string>, t: string)
    requires NoDuplicates(ts)
    ensures NoDuplicates(ToggleTrait(ts, t))
  {
    if t in ts {
      WithoutTraitNoDuplicates(ts, t);
    }
  }

  /** Toggling an unselected trait twice restores the list. */
  lemma ToggleTraitTwice(ts: seq<string>, t: string)
    requires t !in ts
    ensures ToggleTrait(ToggleTrait(ts, t), t) == ts
  {
    assert WithoutTrait(ts + [t], t) == ts by {
      WithoutAbsentTrait(ts, t);
      WithoutTraitAppend(ts, [t], t);
      assert [t][1..] == [];
    }
  }

  lemma {:induction false} WithoutTraitAppend(a: seq<string>, b: seq<string>, t: string)
    ensures WithoutTrait(a + b, t) == WithoutTrait(a, t) + WithoutTrait(b, t)
  {
    if a == [] {
      assert a + b == b;
    } else {
      assert (a + b)[1..] == a[1..] + b;
      WithoutTraitAppend(a[1..], b, t);
    }
  }
}
