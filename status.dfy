/**
 * The status bar text that update_stats builds after the clamp: one segment
 * per mood, in the dictionary's order Cleanliness, Energy, Happiness, Hunger.
 */
module Status {
  import opened Mood
  import opened Decimal

  /** Between a mood's name and its value. */
  const NameSeparator: string := ": "

  /** After every value, the last one included. */
  const Padding: string := "     "

  /** The text of one dictionary entry: name, separator, decimal value, padding. */
  function Segment(name: string, value: int): string {
    name + NameSeparator + IntToString(value) + Padding
  }

  /** The dictionary's entries in its iteration order. */
  function Entries(m: Moods): seq<(string, int)> {
    [("Cleanliness", m.cleanliness), ("Energy", m.energy), ("Happiness", m.happiness), ("Hunger", m.hunger)]
  }

  /** The segments of the given entries, concatenated in order. */
  function Render(entries: seq<(string, int)>): string
    decreases |entries|
  {
    if entries == [] then "" else Segment(entries[0].0, entries[0].1) + Render(entries[1..])
  }

  /** The status bar text for the given moods. */
  function StatusLine(m: Moods): string {
    Render(Entries(m))
  }

  /** Rendering one more entry appends its segment. */
  lemma {:induction false} RenderAppend(entries: seq<(string, int)>, name: string, value: int)
    ensures Render(entries + [(name, value)]) == Render(entries) + Segment(name, value)
    decreases |entries|
  {
    if entries == [] {
      assert [(name, value)][1..] == [];
    } else {
      assert (entries + [(name, value)])[1..] == entries[1..] + [(name, value)];
      RenderAppend(entries[1..], name, value);
    }
  }

  /**
   * The loop of update_stats: start from the empty string and append the
   * segment of each entry in turn.
   */
  method RenderStats(entries: seq<(string, int)>) returns (s: string)
    ensures s == Render(entries)
  {
    s := "";
    var i := 0;
    while i < |entries|
      invariant 0 <= i <= |entries|
      invariant s == Render(entries[..i])
    {
      var (name, value) := entries[i];
      assert entries[..i + 1] == entries[..i] + [(name, value)];
      RenderAppend(entries[..i], name, value);
      s := s + Segment(name, value);
      i := i + 1;
    }
    assert entries[..i] == entries;
  }

  /** The status line is the four segments in the fixed order, the last one padded too. */
  lemma StatusLineShape(m: Moods)
    ensures StatusLine(m) ==
      Segment("Cleanliness", m.cleanliness) + (Segment("Energy", m.energy)
      + (Segment("Happiness", m.happiness) + Segment("Hunger", m.hunger)))
  {
    var e := Entries(m);
    var cs, es := Segment("Cleanliness", m.cleanliness), Segment("Energy", m.energy);
    var hs, us := Segment("Happiness", m.happiness), Segment("Hunger", m.hunger);
    assert e[1..][1..][1..][1..] == [];
    assert Render(e[1..][1..][1..]) == us;
    assert Render(e[1..][1..]) == hs + us;
    assert Render(e[1..]) == es + (hs + us);
    assert Render(e) == cs + (es + (hs + us));
  }

  predicate NoSpace(s: string) {
    forall i :: 0 <= i < |s| ==> s[i] != ' '
  }

  /** Two texts without spaces, each followed by a space, split the same way. */
  lemma SplitAtSpace(x: string, r1: string, y: string, r2: string)
    requires NoSpace(x) && NoSpace(y)
    requires |r1| > 0 && r1[0] == ' ' && |r2| > 0 && r2[0] == ' '
    requires x + r1 == y + r2
    ensures x == y && r1 == r2
  {
    var s := x + r1;
    assert forall i :: 0 <= i < |x| ==> s[i] != ' ';
    assert s[|x|] == ' ';
    assert forall i :: 0 <= i < |y| ==> s[i] != ' ';
    assert s[|y|] == ' ';
    assert x == (x + r1)[..|x|];
    assert y == (y + r2)[..|y|];
    assert r1 == (x + r1)[|x|..];
    assert r2 == (y + r2)[|y|..];
  }

  /** A segment followed by anything determines its value and what follows. */
  lemma SegmentSplit(name: string, a: int, r1: string, b: int, r2: string)
    requires Segment(name, a) + r1 == Segment(name, b) + r2
    ensures a == b && r1 == r2
  {
    var p := name + NameSeparator;
    var x, y := IntToString(a), IntToString(b);
    assert Segment(name, a) + r1 == p + (x + (Padding + r1));
    assert Segment(name, b) + r2 == p + (y + (Padding + r2));
    assert x + (Padding + r1) == (p + (x + (Padding + r1)))[|p|..];
    assert y + (Padding + r2) == (p + (y + (Padding + r2)))[|p|..];
    IntToStringHasNoSpace(a);
    IntToStringHasNoSpace(b);
    SplitAtSpace(x, Padding + r1, y, Padding + r2);
    IntToStringInjective(a, b);
    assert r1 == (Padding + r1)[|Padding|..];
    assert r2 == (Padding + r2)[|Padding|..];
  }

  /** The status bar shows every mood: different moods give different texts. */
  lemma StatusLineInjective(m1: Moods, m2: Moods)
    requires StatusLine(m1) == StatusLine(m2)
    ensures m1 == m2
  {
    StatusLineShape(m1);
    StatusLineShape(m2);
    var h1, u1 := Segment("Happiness", m1.happiness), Segment("Hunger", m1.hunger);
    var h2, u2 := Segment("Happiness", m2.happiness), Segment("Hunger", m2.hunger);
    var e1, e2 := Segment("Energy", m1.energy), Segment("Energy", m2.energy);
    assert Segment("Cleanliness", m1.cleanliness) + (e1 + (h1 + u1))
        == Segment("Cleanliness", m2.cleanliness) + (e2 + (h2 + u2));
    SegmentSplit("Cleanliness", m1.cleanliness, e1 + (h1 + u1), m2.cleanliness, e2 + (h2 + u2));
    SegmentSplit("Energy", m1.energy, h1 + u1, m2.energy, h2 + u2);
    SegmentSplit("Happiness", m1.happiness, u1, m2.happiness, u2);
    assert u1 + "" == u1 && u2 + "" == u2;
    SegmentSplit("Hunger", m1.hunger, "", m2.hunger, "");
  }
}
