/** The six keyboard layouts the widget offers, and the mapping from the
    ball's position on the bar to a character slot of the active layout. */
module Layouts {

  datatype Layout = US | UK | German | French | Spanish | Dutch

  const Alphabet: string := "abcdefghijklmnopqrstuvwxyz"

  /** The ordered character set of a layout. Every layout is non-empty and
      starts with the 26 lower-case ASCII letters. */
  function Characters(l: Layout): (r: string)
    ensures |r| > |Alphabet| && r[..|Alphabet|] == Alphabet
  {
    match l
    case US => Alphabet + "0123456789!@#$%^&*()-_=+[]{}|;:'\",.<>/?"
    case UK => Alphabet + "0123456789!\"£$%^&*()-_=+[]{}~@#;:'<,>.?/\\"
    case German => Alphabet + "äöüß0123456789!\"§$%&/()=?`´+#-.,;:_'*°²³{[]}\\"
    case French => Alphabet + "éèêëàâäôöùûüÿç0123456789!\"#$%&'()*+,-./:;<=>?@[\\]^_`{|}~"
    case Spanish => Alphabet + "áéíóúüñ0123456789!\"#$%&'()*+,-./:;<=>?@[\\]^_`{|}~"
    case Dutch => Alphabet + "àáèéëêïìóòöôùúüû0123456789!@#$%^&*()-_=+[]{};:'\",.<>/?"
  }

  /** Number of characters of each layout. */
  lemma LayoutLengths(l: Layout)
    ensures |Characters(l)| == match l
      case US => 65 case UK => 67 case German => 71
      case French => 82 case Spanish => 75 case Dutch => 80
  {
  }

  /** No two layouts share a character sequence. */
  lemma LayoutsDistinct(l1: Layout, l2: Layout)
    requires l1 != l2
    ensures Characters(l1) != Characters(l2)
  {
    LayoutLengths(l1);
    LayoutLengths(l2);
  }

  /** Width of one character slot on the bar: 1 / length. */
  function CharWidth(len: nat): real
    requires len > 0
  {
    1.0 / len as real
  }

  /** floor(position * length): the index used for the highlighted slot and
      for deciding whether the ball entered a new slot. It is NOT clamped,
      so position 1.0 yields the length itself. */
  function SlotIndex(position: real, len: nat): (k: int)
    ensures 0.0 <= position <= 1.0 && len > 0 ==> 0 <= k <= len && (k == len <==> position == 1.0)
  {
    FloorOnBar(position, len);
    (position * len as real).Floor
  }

  /** The index Space actually commits: the slot index capped at length - 1. */
  function SelectedIndex(position: real, len: nat): (i: int)
    requires len > 0
    ensures 0.0 <= position <= 1.0 ==> 0 <= i < len
  {
    var k := SlotIndex(position, len);
    if k < len - 1 then k else len - 1
  }

  /** The character Space commits in layout `l` with the ball at `position`. */
  function SelectedChar(l: Layout, position: real): (c: char)
    requires 0.0 <= position <= 1.0
    ensures c in Characters(l)
  {
    var chars := Characters(l);
    chars[SelectedIndex(position, |chars|)]
  }

  lemma FloorOnBar(position: real, len: nat)
    ensures 0.0 <= position <= 1.0 && len > 0 ==>
              var k := (position * len as real).Floor;
              0 <= k <= len && (k == len <==> position == 1.0)
  {
    if 0.0 <= position <= 1.0 && len > 0 {
      assert 0.0 <= position * len as real <= len as real;
      if position < 1.0 {
        assert position * len as real < len as real;
      }
    }
  }

  /** The committed index never decreases as the ball moves right. */
  lemma {:induction false} SelectedIndexMonotone(p: real, q: real, len: nat)
    requires 0.0 <= p <= q <= 1.0 && len > 0
    ensures SelectedIndex(p, len) <= SelectedIndex(q, len)
  {
    var a, b := p * len as real, q * len as real;
    MulMonotone(p, q, len as real);
    assert a <= b;
    assert a.Floor as real <= a <= b < b.Floor as real + 1.0;
  }

  /** Slot `i` covers [i * width, (i + 1) * width): a position in that
      interval has slot index `i`, and every position below 1.0 lies in the
      slot its index names. */
  lemma {:induction false} SlotIndexIsSlot(position: real, len: nat, i: int)
    requires len > 0 && 0 <= i < len
    ensures (i as real * CharWidth(len) <= position < (i + 1) as real * CharWidth(len))
            <==> SlotIndex(position, len) == i
  {
    var w, n := CharWidth(len), len as real;
    var lo, hi := i as real * w, (i + 1) as real * w;
    SlotBoundary(i as real, w, n);
    SlotBoundary((i + 1) as real, w, n);
    LowerEdge(lo, position, n, i as real);
    UpperEdge(hi, position, n, (i + 1) as real);
    FloorIs(position * n, i);
  }

  /** A lower slot edge, scaled by the length n. */
  lemma LowerEdge(lo: real, p: real, n: real, j: real)
    requires n > 0.0 && lo * n == j
    ensures lo <= p <==> j <= p * n
  {
    MulMonotone(lo, p, n);
  }

  /** An upper slot edge, scaled by the length n. */
  lemma UpperEdge(hi: real, p: real, n: real, j: real)
    requires n > 0.0 && hi * n == j
    ensures p < hi <==> p * n < j
  {
    MulStrict(p, hi, n);
  }

  lemma FloorIs(x: real, i: int)
    ensures x.Floor == i <==> i as real <= x < (i + 1) as real
  {
  }

  /** The boundary j * width of the bar, scaled back by the length, is j. */
  lemma SlotBoundary(j: real, w: real, n: real)
    requires n > 0.0 && w == 1.0 / n
    ensures j * w * n == j
  {
    assert w * n == 1.0;
    assert j * w * n == j * (w * n);
  }

  lemma MulMonotone(a: real, b: real, n: real)
    requires n > 0.0
    ensures a <= b <==> a * n <= b * n
  {
  }

  lemma MulStrict(a: real, b: real, n: real)
    requires n > 0.0
    ensures a < b <==> a * n < b * n
  {
  }

  /** Space at the right end commits the last character, although the
      unclamped slot index there is one past the last slot. */
  lemma RightEndSelectsLast(len: nat)
    requires len > 0
    ensures SelectedIndex(1.0, len) == len - 1
    ensures SlotIndex(1.0, len) == len
  {
  }

  /** Below the right end the clamp never applies: both indices agree. */
  lemma SelectedAgreesWithSlot(position: real, len: nat)
    requires len > 0 && 0.0 <= position < 1.0
    ensures SelectedIndex(position, len) == SlotIndex(position, len)
  {
  }

  /** With the US layout and the ball at its starting point 0.5, Space commits '6'. */
  lemma StartingCharacterUS()
    ensures SelectedChar(US, 0.5) == '6'
  {
    var chars := Characters(US);
    var rest := "0123456789!@#$%^&*()-_=+[]{}|;:'\",.<>/?";
    assert chars == Alphabet + rest;
    assert |Alphabet| == 26 && |rest| == 39;
    assert rest[6] == '6';
    assert chars[|Alphabet| + 6] == rest[6];
    assert |chars| == 65;
    assert 0.5 * 65 as real == 32.5;
    assert SlotIndex(0.5, 65) == 32;
    assert SelectedIndex(0.5, 65) == 32;
  }
}
