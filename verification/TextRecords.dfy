/** Texts made of records that each end with a separator character. */
module TextRecords {
  /** Where the first separator from `k` on is, or the length of the text. */
  function IndexFrom(text: string, c: char, k: nat): (i: nat)
    requires k <= |text|
    ensures k <= i <= |text|
    decreases |text| - k
  {
    if k == |text| || text[k] == c then k else IndexFrom(text, c, k + 1)
  }

  function IndexOf(text: string, c: char): (i: nat)
    ensures i <= |text|
  {
    IndexFrom(text, c, 0)
  }

  lemma {:induction false} IndexFromFinds(text: string, c: char, k: nat)
    requires k <= |text|
    ensures forall j | k <= j < IndexFrom(text, c, k) :: text[j] != c
    ensures IndexFrom(text, c, k) < |text| ==> text[IndexFrom(text, c, k)] == c
    decreases |text| - k
  {
    if k < |text| && text[k] != c {
      IndexFromFinds(text, c, k + 1);
    }
  }

  lemma IndexOfFinds(text: string, c: char)
    ensures forall j | 0 <= j < IndexOf(text, c) :: text[j] != c
    ensures IndexOf(text, c) < |text| ==> text[IndexOf(text, c)] == c
  {
    IndexFromFinds(text, c, 0);
  }

  lemma {:induction false} IndexFromIs(text: string, c: char, k: nat, i: nat)
    requires k <= i < |text| && text[i] == c && forall j | k <= j < i :: text[j] != c
    ensures IndexFrom(text, c, k) == i
    decreases i - k
  {
    if k < i {
      IndexFromIs(text, c, k + 1, i);
    }
  }

  lemma {:induction false} IndexFromIsAtMost(text: string, c: char, k: nat, i: nat)
    requires k <= i < |text| && text[i] == c
    ensures IndexFrom(text, c, k) <= i
    decreases i - k
  {
    if k < i && text[k] != c {
      IndexFromIsAtMost(text, c, k + 1, i);
    }
  }

  /** The complete records of a text. */
  function Records(text: string, c: char): seq<string>
    decreases |text|
  {
    var i := IndexOf(text, c);
    if i == |text| then [] else [text[..i]] + Records(text[i + 1..], c)
  }

  /** What follows the last separator. */
  function Residue(text: string, c: char): string
    decreases |text|
  {
    var i := IndexOf(text, c);
    if i == |text| then text else Residue(text[i + 1..], c)
  }

  lemma {:induction false} NoSeparatorInside(text: string, c: char)
    ensures c !in Residue(text, c)
    ensures forall record | record in Records(text, c) :: c !in record
    decreases |text|
  {
    var i := IndexOf(text, c);
    IndexOfFinds(text, c);
    if i == |text| {
      assert text[..i] == text;
    } else {
      NoSeparatorInside(text[i + 1..], c);
    }
  }

  /** Each frame followed by its separator. */
  function Print(frames: seq<string>, c: char): string {
    if frames == [] then "" else frames[0] + [c] + Print(frames[1..], c)
  }

  lemma IndexOfExtended(a: string, b: string, c: char)
    requires IndexOf(a, c) < |a|
    ensures IndexOf(a + b, c) == IndexOf(a, c)
  {
    IndexOfFinds(a, c);
    IndexFromIs(a + b, c, 0, IndexOf(a, c));
  }

  lemma FirstOfRecords(text: string, c: char, i: nat, rest: string)
    requires i == IndexOf(text, c) < |text| && rest == text[i + 1..]
    ensures Records(text, c) == [text[..i]] + Records(rest, c)
    ensures Residue(text, c) == Residue(rest, c)
  {
  }

  lemma Regroup<A>(x: A, a: seq<A>, b: seq<A>)
    ensures [x] + (a + b) == ([x] + a) + b
  {
  }

  /** Reading on: the new records are those of the residue and the next chunk. */
  lemma {:induction false} ReadOn(a: string, b: string, c: char)
    ensures Records(a + b, c) == Records(a, c) + Records(Residue(a, c) + b, c)
    ensures Residue(a + b, c) == Residue(Residue(a, c) + b, c)
    decreases |a|
  {
    var i := IndexOf(a, c);
    if i == |a| {
      assert Records(a, c) == [] && Residue(a, c) == a;
    } else {
      var head, rest := a[..i], a[i + 1..];
      IndexOfExtended(a, b, c);
      assert (a + b)[i + 1..] == rest + b && (a + b)[..i] == head;
      FirstOfRecords(a + b, c, i, rest + b);
      FirstOfRecords(a, c, i, rest);
      ReadOn(rest, b, c);
      Regroup(head, Records(rest, c), Records(Residue(a, c) + b, c));
    }
  }

  lemma FirstRecord(frame: string, rest: string, c: char)
    requires c !in frame
    ensures Records(frame + [c] + rest, c) == [frame] + Records(rest, c)
    ensures Residue(frame + [c] + rest, c) == Residue(rest, c)
  {
    var text, i := frame + [c] + rest, |frame|;
    assert forall j | 0 <= j < i :: text[j] == frame[j] && frame[j] in frame;
    IndexFromIs(text, c, 0, i);
    assert text[..i] == frame && text[i + 1..] == rest;
    FirstOfRecords(text, c, i, rest);
  }

  /** Frames without a raw separator come back exactly, and nothing is left over. */
  lemma {:induction false} FramesComeBack(frames: seq<string>, c: char)
    requires forall frame | frame in frames :: c !in frame
    ensures Records(Print(frames, c), c) == frames && Residue(Print(frames, c), c) == ""
  {
    if frames != [] {
      FramesComeBack(frames[1..], c);
      FirstRecord(frames[0], Print(frames[1..], c), c);
    }
  }
}
