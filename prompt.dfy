/**
 * The variable pieces of the generation prompt (App.jsx:1011-1014, 1083-1084)
 * and the prompt they are placed into. The fixed instruction prose around
 * them is represented by the constants `Head`, `Middle` and `Tail`, short
 * stand-ins that keep only the headings the variable pieces hang on.
 */
module Prompt {
  import opened Text
  import opened Selection
  import opened StyleSamples

  /** `${k}: ${v}` for one selected questionnaire answer. */
  function EntryLine(e: (string, string)): string {
    e.0 + ": " + e.1
  }

  /** The entries, each rendered as `k: v`, in order. */
  function EntryLines(entries: seq<(string, string)>): (r: seq<string>)
    ensures |r| == |entries|
    ensures forall i :: 0 <= i < |entries| ==> r[i] == EntryLine(entries[i])
  {
    seq(|entries|, i requires 0 <= i < |entries| => EntryLine(entries[i]))
  }

  /** `studentText`: the selected answers joined by blank lines. */
  function StudentText(entries: seq<(string, string)>): string {
    Join(EntryLines(entries), "\n\n")
  }

  /** Every selected answer appears, as `k: v`, in the student text. */
  lemma StudentTextHasEntry(entries: seq<(string, string)>, i: nat)
    requires i < |entries|
    ensures Embeds(StudentText(entries), EntryLine(entries[i]))
  {
    JoinEmbeds(EntryLines(entries), "\n\n", i);
  }

  const TraitsHeading: string := "\n\n## 교사가 관찰한 학생의 주요 특성:\n"
  const TraitsFooter: string := "\n(위 특성들을 자연스럽게 반영하여 작성해주세요)"

  /** `traitsText`: empty without traits, otherwise a heading, the traits joined
      by `", "`, and a closing request. */
  function TraitsText(traits: seq<string>): (r: string)
    ensures r == "" <==> traits == []
  {
    if |traits| > 0 then TraitsHeading + Join(traits, ", ") + TraitsFooter else ""
  }

  /** Every selected trait appears in the traits text. */
  lemma TraitsTextHasTrait(traits: seq<string>, i: nat)
    requires i < |traits|
    ensures Embeds(TraitsText(traits), traits[i])
  {
    JoinEmbeds(traits, ", ", i);
    EmbedsInRight(TraitsHeading, Join(traits, ", "), traits[i]);
    EmbedsInLeft(TraitsHeading + Join(traits, ", "), TraitsFooter, traits[i]);
  }

  /** `[종합의견 예시 ${n}]\n${text}` for the sample at position `n - 1`. */
  function SamplePart(n: nat, text: string): string {
    "[종합의견 예시 " + NatToString(n) + "]\n" + text
  }

  /** The labelled parts of the samples that have text, numbered by their
      position in the whole list (counting from `start + 1`), so that a
      sample without text leaves a gap in the numbering. */
  function SampleParts(ss: seq<Sample>, start: nat): (r: seq<string>)
    ensures |r| <= |ss|
    ensures r == [] <==> forall i :: 0 <= i < |ss| ==> ss[i].text == ""
  {
    if ss == [] then []
    else if ss[0].text != "" then [SamplePart(start + 1, ss[0].text)] + SampleParts(ss[1..], start + 1)
    else SampleParts(ss[1..], start + 1)
  }

  /** A sample with text at position `i` contributes its part, labelled `i + 1`. */
  lemma {:induction false} SamplePartsHas(ss: seq<Sample>, start: nat, i: nat)
    requires i < |ss| && ss[i].text != ""
    ensures SamplePart(start + i + 1, ss[i].text) in SampleParts(ss, start)
  {
    if i > 0 {
      SamplePartsHas(ss[1..], start + 1, i - 1);
    }
  }

  /** The style block: the labelled parts joined by blank lines. */
  function StyleBlock(ss: seq<Sample>): (r: string)
    ensures (forall i :: 0 <= i < |ss| ==> ss[i].text == "") ==> r == ""
  {
    Join(SampleParts(ss, 0), "\n\n")
  }

  /** Every sample the teacher filled in appears, with its label, in the style block. */
  lemma StyleBlockHasSample(ss: seq<Sample>, i: nat)
    requires i < |ss| && ss[i].text != ""
    ensures Embeds(StyleBlock(ss), SamplePart(i + 1, ss[i].text))
  {
    var parts := SampleParts(ss, 0);
    SamplePartsHas(ss, 0, i);
    var k :| 0 <= k < |parts| && parts[k] == SamplePart(i + 1, ss[i].text);
    JoinEmbeds(parts, "\n\n", k);
  }

  const NoSamplesNote: string := "(제공된 예시 없음 - 일반적인 생기부 작성 스타일로 작성)"

  /** The note printed under the block when no sample has text, else nothing. */
  function SamplesNote(ss: seq<Sample>): (r: string)
    ensures r == NoSamplesNote <==> forall i :: 0 <= i < |ss| ==> ss[i].text == ""
    ensures r != NoSamplesNote ==> r == ""
  {
    if forall i :: 0 <= i < |ss| ==> ss[i].text == "" then NoSamplesNote else ""
  }

  /** Stand-in for the instructions, persona, format rules and style analysis
      that precede the teacher's samples; it ends with the samples' heading. */
  const Head: string := "# 명령\n…\n### 선생님의 종합의견 예시:\n"

  /** Stand-in for the cautions between the samples and the answers; it ends
      with the answers' heading. */
  const Middle: string := "\n\n### 작성 시 주의사항:\n…\n## 학생 자기평가 설문 응답 (Q1~Q10):\n"

  /** Stand-in for the closing request that follows the answers. */
  const Tail: string := "\n\n---\n\n위 지침과 학생의 자기평가 설문 내용을 바탕으로 '행동특성 및 종합의견'을 작성해주세요.\n…"

  /** The whole prompt: fixed text around the style block, the note, the
      student text and the traits text. */
  function Build(ss: seq<Sample>, entries: seq<(string, string)>, traits: seq<string>): string {
    (Head + StyleBlock(ss) + "\n" + SamplesNote(ss) + Middle)
    + StudentText(entries)
    + ("\n" + TraitsText(traits) + Tail)
  }

  /** Every selected answer reaches the prompt. */
  lemma BuildHasEntry(ss: seq<Sample>, entries: seq<(string, string)>, traits: seq<string>, i: nat)
    requires i < |entries|
    ensures Embeds(Build(ss, entries, traits), EntryLine(entries[i]))
  {
    StudentTextHasEntry(entries, i);
    EmbedsInMiddle(Head + StyleBlock(ss) + "\n" + SamplesNote(ss) + Middle, StudentText(entries),
      "\n" + TraitsText(traits) + Tail, EntryLine(entries[i]));
  }

  /** Every selected trait reaches the prompt. */
  lemma BuildHasTrait(ss: seq<Sample>, entries: seq<(string, string)>, traits: seq<string>, i: nat)
    requires i < |traits|
    ensures Embeds(Build(ss, entries, traits), traits[i])
  {
    TraitsTextHasTrait(traits, i);
    EmbedsInMiddle("\n", TraitsText(traits), Tail, traits[i]);
    EmbedsInRight((Head + StyleBlock(ss) + "\n" + SamplesNote(ss) + Middle) + StudentText(entries),
      "\n" + TraitsText(traits) + Tail, traits[i]);
    assert Build(ss, entries, traits)
      == (Head + StyleBlock(ss) + "\n" + SamplesNote(ss) + Middle) + StudentText(entries)
      + ("\n" + TraitsText(traits) + Tail);
  }

  /** Every style sample the teacher filled in reaches the prompt, labelled with
      its position in the list. */
  lemma BuildHasSample(ss: seq<Sample>, entries: seq<(string, string)>, traits: seq<string>, i: nat)
    requires i < |ss| && ss[i].text != ""
    ensures Embeds(Build(ss, entries, traits), SamplePart(i + 1, ss[i].text))
  {
    var t := SamplePart(i + 1, ss[i].text);
    var front := Head + StyleBlock(ss) + "\n" + SamplesNote(ss) + Middle;
    StyleBlockHasSample(ss, i);
    EmbedsInMiddle(Head, StyleBlock(ss), "\n" + SamplesNote(ss) + Middle, t);
    RegroupTail(Head, StyleBlock(ss), "\n", SamplesNote(ss), Middle);
    EmbedsInLeft(front, StudentText(entries) + ("\n" + TraitsText(traits) + Tail), t);
    RegroupRight(front, StudentText(entries), "\n" + TraitsText(traits) + Tail);
  }

  /** The prompt of a student's generation: the selected answers of the record. */
  function ForStudent(ss: seq<Sample>, st: Student, flags: map<string, bool>, traits: seq<string>): string {
    Build(ss, SelectedEntries(st, flags), traits)
  }

  /** An answer of the record whose item is ticked reaches the prompt. */
  lemma ForStudentHasTicked(ss: seq<Sample>, st: Student, flags: map<string, bool>, traits: seq<string>, e: (string, string))
    requires e in st && IsQKey(e.0) && IsSelected(flags, e.0)
    ensures Embeds(ForStudent(ss, st, flags, traits), EntryLine(e))
  {
    var entries := SelectedEntries(st, flags);
    var i :| 0 <= i < |entries| && entries[i] == e;
    BuildHasEntry(ss, entries, traits, i);
  }
}
