/** How a CrCast call's text fragments become one line of parts: the trimmed
    fragments in order, with a space and an empty slot between each pair, and
    nothing after the last fragment. */
module CallShape {
  import opened Trimming
  import opened Cards

  /** The number of parts built from `n` fragments: three per fragment, less
      the space and slot dropped after the last one. */
  function ParagraphLength(n: nat): nat {
    if n == 0 then 0 else 3 * n - 2
  }

  lemma DivMod3(k: nat, j: nat)
    requires j < 3
    ensures (3 * k + j) / 3 == k && (3 * k + j) % 3 == j
  {
  }

  /** The part at position `i` of the line over `words`: word `i / 3`, then a
      space, then a slot. */
  function PartAt(words: seq<string>, i: nat): Part
    requires i / 3 < |words|
  {
    if i % 3 == 0 then Text(words[i / 3])
    else if i % 3 == 1 then Text(" ")
    else Slot
  }

  /** The words in order with a space and a slot between each pair. */
  function Interleave(words: seq<string>): (parts: seq<Part>)
    ensures |parts| == ParagraphLength(|words|)
  {
    seq(ParagraphLength(|words|), i requires 0 <= i < ParagraphLength(|words|) => PartAt(words, i))
  }

  /** Every fragment, trimmed. */
  function TrimAll(fragments: seq<string>): (r: seq<string>)
    ensures |r| == |fragments|
  {
    seq(|fragments|, i requires 0 <= i < |fragments| => Trim(fragments[i]))
  }

  /** The line of parts a call with these fragments has. */
  function CallParts(fragments: seq<string>): (parts: seq<Part>)
    ensures |parts| == ParagraphLength(|fragments|)
    ensures |fragments| > 0 ==> parts[0] == Text(Trim(fragments[0]))
    ensures |fragments| > 0 ==> parts[|parts| - 1] == Text(Trim(fragments[|fragments| - 1]))
  {
    InterleaveEnds(TrimAll(fragments));
    Interleave(TrimAll(fragments))
  }

  /** JavaScript's `Array.prototype.pop`, for its effect on the array: the last
      element goes, and an empty array stays empty. */
  function Pop<T>(s: seq<T>): (r: seq<T>)
    ensures s == [] ==> r == []
    ensures s != [] ==> r + [s[|s| - 1]] == s
  {
    if s == [] then [] else s[..|s| - 1]
  }

  /** Positions: for every word but the last, part `3k` is word `k`, part
      `3k+1` a space and part `3k+2` a slot. */
  lemma InterleaveAt(words: seq<string>, k: nat)
    requires k < |words| - 1
    ensures Interleave(words)[3 * k] == Text(words[k])
    ensures Interleave(words)[3 * k + 1] == Text(" ")
    ensures Interleave(words)[3 * k + 2] == Slot
  {
    DivMod3(k, 0);
    DivMod3(k, 1);
    DivMod3(k, 2);
  }

  /** The line starts and ends with a word, never with a slot or a space; no
      words give an empty line. */
  lemma InterleaveEnds(words: seq<string>)
    ensures words == [] <==> Interleave(words) == []
    ensures words != [] ==>
      && Interleave(words)[0] == Text(words[0])
      && Interleave(words)[|Interleave(words)| - 1] == Text(words[|words| - 1])
  {
    if words != [] {
      DivMod3(0, 0);
      DivMod3(|words| - 1, 0);
    }
  }

  lemma InterleaveSingle(word: string)
    ensures Interleave([word]) == [Text(word)]
  {
    DivMod3(0, 0);
  }

  /** Adding a word appends a space, a slot and the word. */
  lemma InterleaveSnoc(words: seq<string>, last: string)
    requires words != []
    ensures Interleave(words + [last]) == Interleave(words) + [Text(" "), Slot, Text(last)]
  {
    var n := |words|;
    var longer := words + [last];
    var lhs := Interleave(longer);
    var rhs := Interleave(words) + [Text(" "), Slot, Text(last)];
    forall i | 0 <= i < 3 * n + 1
      ensures lhs[i] == rhs[i]
    {
      if i < 3 * n - 2 {
        DivMod3(i / 3, i % 3);
        assert longer[i / 3] == words[i / 3];
      } else if i == 3 * n - 2 {
        DivMod3(n - 1, 1);
      } else if i == 3 * n - 1 {
        DivMod3(n - 1, 2);
      } else {
        DivMod3(n, 0);
      }
    }
  }

  /** What one more word adds: one slot, and a space, the blank and the word
      when read. */
  lemma SeparatorTail(word: string, blank: string)
    ensures CountSlots([Text(" "), Slot, Text(word)]) == 1
    ensures Render([Text(" "), Slot, Text(word)], blank) == " " + blank + word
  {
    var tail := [Text(" "), Slot, Text(word)];
    assert tail[..2] == [Text(" "), Slot] && tail[..2][..1] == [Text(" ")];
    assert [Text(" ")][..0] == [];
    assert CountSlots([Text(" ")]) == 0;
    assert CountSlots([Text(" "), Slot]) == 1;
    assert Render([Text(" ")], blank) == " ";
    assert Render([Text(" "), Slot], blank) == " " + blank;
  }

  /** The number of slots in a line of parts. */
  function CountSlots(parts: seq<Part>): nat {
    if parts == [] then 0
    else CountSlots(parts[..|parts| - 1]) + (if parts[|parts| - 1] == Slot then 1 else 0)
  }

  lemma {:induction false} CountSlotsAppend(a: seq<Part>, b: seq<Part>)
    ensures CountSlots(a + b) == CountSlots(a) + CountSlots(b)
  {
    if b == [] {
      assert a + b == a;
    } else {
      assert (a + b)[..|a + b| - 1] == a + b[..|b| - 1];
      CountSlotsAppend(a, b[..|b| - 1]);
    }
  }

  /** A line over `n >= 1` words has exactly `n - 1` slots, one between each
      pair of consecutive words; a line over no words has none. */
  lemma {:induction false} SlotCount(words: seq<string>)
    ensures CountSlots(Interleave(words)) == if words == [] then 0 else |words| - 1
  {
    var n := |words|;
    if n == 1 {
      InterleaveSingle(words[0]);
      assert [Text(words[0])][..0] == [];
    } else if n > 1 {
      var init := words[..n - 1];
      assert words == init + [words[n - 1]];
      InterleaveSnoc(init, words[n - 1]);
      SlotCount(init);
      var tail := [Text(" "), Slot, Text(words[n - 1])];
      CountSlotsAppend(Interleave(init), tail);
      SeparatorTail(words[n - 1], "");
    }
  }

  /** The text a player reads, with every slot shown as `blank`. */
  function Render(parts: seq<Part>, blank: string): string {
    if parts == [] then ""
    else
      var last := parts[|parts| - 1];
      Render(parts[..|parts| - 1], blank) + (if last.Slot? then blank else last.text)
  }

  /** The words joined with `sep` between consecutive ones. */
  function Join(words: seq<string>, sep: string): string {
    if words == [] then ""
    else if |words| == 1 then words[0]
    else Join(words[..|words| - 1], sep) + sep + words[|words| - 1]
  }

  lemma {:induction false} RenderAppend(a: seq<Part>, b: seq<Part>, blank: string)
    ensures Render(a + b, blank) == Render(a, blank) + Render(b, blank)
  {
    if b == [] {
      assert a + b == a;
    } else {
      assert (a + b)[..|a + b| - 1] == a + b[..|b| - 1];
      RenderAppend(a, b[..|b| - 1], blank);
    }
  }

  /** Read back with its slots shown as `blank`, the line says its words
      joined by a space and the blank: a slot sits between every pair of
      words and nowhere else. */
  lemma {:induction false} RenderInterleave(words: seq<string>, blank: string)
    ensures Render(Interleave(words), blank) == Join(words, " " + blank)
  {
    var n := |words|;
    if n == 1 {
      InterleaveSingle(words[0]);
      assert [Text(words[0])][..0] == [];
    } else if n > 1 {
      var init := words[..n - 1];
      var last := words[n - 1];
      assert words == init + [last];
      InterleaveSnoc(init, last);
      RenderInterleave(init, blank);
      var tail := [Text(" "), Slot, Text(last)];
      RenderAppend(Interleave(init), tail, blank);
      SeparatorTail(last, blank);
    }
  }

  /** Three fragments give two slots, one after each of the first two. */
  lemma ThreeFragments()
    ensures CallParts(["A", "B", "C"]) == [Text("A"), Text(" "), Slot, Text("B"), Text(" "), Slot, Text("C")]
  {
    TrimOfTrimmed("A");
    TrimOfTrimmed("B");
    TrimOfTrimmed("C");
    assert TrimAll(["A", "B", "C"]) == ["A", "B", "C"];
    InterleaveSingle("A");
    InterleaveSnoc(["A"], "B");
    assert ["A"] + ["B"] == ["A", "B"];
    InterleaveSnoc(["A", "B"], "C");
    assert ["A", "B"] + ["C"] == ["A", "B", "C"];
  }
}
