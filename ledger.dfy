/**
 * The generation history `generationHistory` and the final-selection map
 * `finalSelections` (App.jsx:25, 27, 123-128, 1118-1125). Both are keyed by
 * the student key: the four-digit student number, else the name.
 */
module Ledger {
  import opened Selection

  /** Field names of the student number and the name in the imported sheet. */
  const NumberField: string := "학번 네자리"
  const NameField: string := "이름"

  /** `student["학번 네자리"] || student["이름"] || fallback`. The export and the
      final-selection buttons pass `""`; the history update passes the clock
      reading `Date.now().toString()`. */
  function StudentKey(st: Student, fallback: string): (k: string)
    ensures FieldValue(st, NumberField) != "" ==> k == FieldValue(st, NumberField)
    ensures FieldValue(st, NumberField) == "" && FieldValue(st, NameField) != "" ==> k == FieldValue(st, NameField)
    ensures FieldValue(st, NumberField) == "" && FieldValue(st, NameField) == "" ==> k == fallback
  {
    var num := FieldValue(st, NumberField);
    if num != "" then num
    else
      var name := FieldValue(st, NameField);
      if name != "" then name else fallback
  }

  /** Two students with the same number share one history and one final selection. */
  lemma SameNumberSameKey(a: Student, b: Student, fa: string, fb: string)
    requires FieldValue(a, NumberField) == FieldValue(b, NumberField) != ""
    ensures StudentKey(a, fa) == StudentKey(b, fb)
  {
  }

  datatype HistoryEntry = HistoryEntry(text: string, timestamp: string)

  type History = map<string, seq<HistoryEntry>>

  /** `prev[studentId] || []`. */
  function EntriesOf(h: History, key: string): seq<HistoryEntry> {
    if key in h then h[key] else []
  }

  /** A successful generation puts its entry in front of the student's history. */
  function Prepend(h: History, key: string, e: HistoryEntry): (r: History)
    ensures EntriesOf(r, key) == [e] + EntriesOf(h, key)
    ensures r.Keys == h.Keys + {key}
    ensures forall k :: k != key ==> EntriesOf(r, k) == EntriesOf(h, k)
  {
    h[key := [e] + EntriesOf(h, key)]
  }

  /** After generations of `t1` and then `t2` for one student the newest entry is
      at index 0, the one before it at index 1, and the older ones follow in order. */
  lemma PrependNewestFirst(h: History, key: string, e1: HistoryEntry, e2: HistoryEntry)
    ensures var r := Prepend(Prepend(h, key, e1), key, e2);
      && |EntriesOf(r, key)| == |EntriesOf(h, key)| + 2
      && EntriesOf(r, key)[0] == e2 && EntriesOf(r, key)[1] == e1
      && EntriesOf(r, key)[2..] == EntriesOf(h, key)
  {
    var r := Prepend(Prepend(h, key, e1), key, e2);
    assert EntriesOf(r, key) == [e2] + ([e1] + EntriesOf(h, key));
  }

  /** Entries of one student never move to another; histories of distinct keys
      are independent of the order in which they are extended. */
  lemma PrependCommutes(h: History, k1: string, e1: HistoryEntry, k2: string, e2: HistoryEntry)
    requires k1 != k2
    ensures Prepend(Prepend(h, k1, e1), k2, e2) == Prepend(Prepend(h, k2, e2), k1, e1)
  {
    var a := Prepend(Prepend(h, k1, e1), k2, e2);
    var b := Prepend(Prepend(h, k2, e2), k1, e1);
    assert a.Keys == b.Keys;
    forall k | k in a ensures a[k] == b[k] {
      assert a[k] == EntriesOf(a, k) && b[k] == EntriesOf(b, k);
    }
  }

  /** `selectFinalOpinion`: the text is stored by value under the key. */
  function SelectFinal(finals: map<string, string>, key: string, text: string): (r: map<string, string>)
    ensures key in r && r[key] == text
    ensures r.Keys == finals.Keys + {key}
    ensures forall k :: k != key && k in finals ==> r[k] == finals[k]
  {
    finals[key := text]
  }

  /** A later selection for the same student overwrites the earlier one. */
  lemma SelectFinalOverwrites(finals: map<string, string>, key: string, a: string, b: string)
    ensures SelectFinal(SelectFinal(finals, key, a), key, b) == SelectFinal(finals, key, b)
  {
    var l := SelectFinal(SelectFinal(finals, key, a), key, b);
    var r := SelectFinal(finals, key, b);
    assert l.Keys == r.Keys;
  }
}
