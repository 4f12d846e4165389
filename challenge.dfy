/**
 * The challenge generator inside `challengeUser`: two operands, the index of
 * the correct button, a 10-letter expected token, and three buttons whose
 * labels are rendered sums and whose callback data are tokens. All random
 * draws are inputs.
 */
module Challenge {
  import opened Text

  /** `rand.Intn(99)`: operands lie in [0, 98]. */
  const OperandBound: nat := 99
  /** The keyboard has this many rows of one button each (`rand.Intn(3)` picks the correct one). */
  const ButtonCount: nat := 3
  /** `randStringBytes(10)`. */
  const TokenLength: nat := 10

  /** `tb.InlineButton`: the callback data and the visible text. */
  datatype Button = Button(data: string, text: string)

  /** The draws the loop makes for one button row. The decoy operands and token are used only off the answer row. */
  datatype Slot = Slot(left: nat, right: nat, token: seq<nat>, zeroPick: nat, onePick: nat)

  /** All draws of one challenge: the operands, the answer index, the expected token, the rows, and the formula's glyph picks. */
  datatype Draws = Draws(left: nat, right: nat, answer: nat, token: seq<nat>, slots: seq<Slot>, zeroPick: nat, onePick: nat)

  predicate TokenDraws(t: seq<nat>) { |t| == TokenLength && LetterDraws(t) }

  predicate GlyphPicks(zeroPick: nat, onePick: nat) { zeroPick < |ZeroGlyphs| && onePick < |OneGlyphs| }

  predicate ValidSlot(s: Slot) {
    s.left < OperandBound && s.right < OperandBound && TokenDraws(s.token) && GlyphPicks(s.zeroPick, s.onePick)
  }

  /** The ranges the random source guarantees. */
  predicate WellFormed(d: Draws) {
    && d.left < OperandBound && d.right < OperandBound
    && d.answer < ButtonCount
    && TokenDraws(d.token)
    && |d.slots| == ButtonCount && (forall i :: 0 <= i < |d.slots| ==> ValidSlot(d.slots[i]))
    && GlyphPicks(d.zeroPick, d.onePick)
  }

  /** What `randStringBytes(10)` can return. */
  predicate IsToken(t: string) {
    |t| == TokenLength && forall i :: 0 <= i < |t| ==> t[i] in LetterBytes
  }

  /** `hashString`, the token recorded as the expected answer. */
  function ExpectedToken(d: Draws): (t: string)
    requires WellFormed(d)
    ensures IsToken(t)
  {
    RandomLetters(d.token)
  }

  /** The number shown on row i: the true sum on the answer row, a sum of two fresh draws elsewhere. */
  function SlotSum(d: Draws, i: nat): (n: nat)
    requires WellFormed(d) && i < ButtonCount
    ensures n <= 2 * (OperandBound - 1)
    ensures i == d.answer ==> n == d.left + d.right
  {
    if i == d.answer then d.left + d.right else d.slots[i].left + d.slots[i].right
  }

  /** The callback data of row i: the expected token on the answer row, a fresh token elsewhere. */
  function SlotData(d: Draws, i: nat): (t: string)
    requires WellFormed(d) && i < ButtonCount
    ensures IsToken(t)
  {
    if i == d.answer then ExpectedToken(d) else RandomLetters(d.slots[i].token)
  }

  function SlotButton(d: Draws, i: nat, widen: string -> string): Button
    requires WellFormed(d) && i < ButtonCount
  {
    Button(SlotData(d, i), RenderFormula(Itoa(SlotSum(d, i)), d.slots[i].zeroPick, d.slots[i].onePick, widen))
  }

  /** The first n rows of the keyboard, as the loop has appended them after n rounds. */
  function KeyboardRows(d: Draws, widen: string -> string, n: nat): (rows: seq<seq<Button>>)
    requires WellFormed(d) && n <= ButtonCount
    ensures |rows| == n
    ensures forall i :: 0 <= i < n ==> rows[i] == [SlotButton(d, i, widen)]
  {
    if n == 0 then [] else KeyboardRows(d, widen, n - 1) + [[SlotButton(d, n - 1, widen)]]
  }

  /** The inline keyboard: one row per slot, one button per row. */
  function Keyboard(d: Draws, widen: string -> string): seq<seq<Button>>
    requires WellFormed(d)
  {
    KeyboardRows(d, widen, ButtonCount)
  }

  /** The `{formula}` text: `replaceFormula(Itoa(left) + "+" + Itoa(right))`. */
  function Formula(d: Draws, widen: string -> string): string
    requires WellFormed(d)
  {
    RenderFormula(Itoa(d.left) + "+" + Itoa(d.right), d.zeroPick, d.onePick, widen)
  }

  /** One round of the loop: the label and the callback data of row `index`. */
  method BuildButton(d: Draws, index: nat, hash: string, widen: string -> string) returns (button: Button)
    requires WellFormed(d) && index < ButtonCount && hash == ExpectedToken(d)
    ensures button == SlotButton(d, index, widen)
  {
    var slot := d.slots[index];
    var text: string;
    var data: string;
    if index == d.answer {
      text := Itoa(d.left + d.right);
      data := hash;
    } else {
      text := Itoa(slot.left + slot.right);
      data := RandStringBytes(TokenLength, slot.token);
    }
    button := Button(data, RenderFormula(text, slot.zeroPick, slot.onePick, widen));
  }

  /** Lines 102-126: draw the expected token, then build the rows in order. */
  method GenerateChallenge(d: Draws, widen: string -> string) returns (hash: string, keys: seq<seq<Button>>)
    requires WellFormed(d)
    ensures hash == ExpectedToken(d)
    ensures keys == Keyboard(d, widen)
  {
    hash := RandStringBytes(TokenLength, d.token);
    keys := [];
    for index := 0 to ButtonCount
      invariant keys == KeyboardRows(d, widen, index)
    {
      var button := BuildButton(d, index, hash, widen);
      keys := keys + [[button]];
    }
  }

  /**
   * The layout: three rows of one button; the answer row carries the
   * expected token and the rendered true sum; every other row a token of
   * its own draws and the rendered sum of its own operands (SlotSum
   * bounds every sum by 196).
   */
  lemma KeyboardLayout(d: Draws, widen: string -> string)
    requires WellFormed(d)
    ensures |Keyboard(d, widen)| == ButtonCount
    ensures var a := d.slots[d.answer];
      Keyboard(d, widen)[d.answer] ==
        [Button(ExpectedToken(d), RenderFormula(Itoa(d.left + d.right), a.zeroPick, a.onePick, widen))]
    ensures forall i :: 0 <= i < ButtonCount && i != d.answer ==>
      var slot := d.slots[i];
      Keyboard(d, widen)[i] ==
        [Button(RandomLetters(slot.token), RenderFormula(Itoa(slot.left + slot.right), slot.zeroPick, slot.onePick, widen))]
  {
    forall i | 0 <= i < ButtonCount
      ensures var slot := d.slots[i];
        Keyboard(d, widen)[i] == [SlotButton(d, i, widen)]
        && SlotData(d, i) == (if i == d.answer then ExpectedToken(d) else RandomLetters(slot.token))
        && SlotSum(d, i) == (if i == d.answer then d.left + d.right else slot.left + slot.right)
    {
    }
  }

  /** Before widening, a button label reads back, glyph by glyph, as the number it shows. */
  lemma LabelReadsAsSum(d: Draws, i: nat)
    requires WellFormed(d) && i < ButtonCount
    ensures var s := Deglyph(Homoglyphs(Itoa(SlotSum(d, i)), d.slots[i].zeroPick, d.slots[i].onePick));
      AllDigits(s) && ParseDecimal(s) == SlotSum(d, i)
  {
    var n := SlotSum(d, i);
    DigitsAreNotGlyphs(Itoa(n));
    DeglyphHomoglyphs(Itoa(n), d.slots[i].zeroPick, d.slots[i].onePick);
    ParseItoa(n);
  }

  /** Before widening, the formula reads back as "left+right". */
  lemma FormulaReadsAsOperands(d: Draws)
    requires WellFormed(d)
    ensures Deglyph(Homoglyphs(Itoa(d.left) + "+" + Itoa(d.right), d.zeroPick, d.onePick))
         == Itoa(d.left) + "+" + Itoa(d.right)
  {
    var f := Itoa(d.left) + "+" + Itoa(d.right);
    DigitsAreNotGlyphs(Itoa(d.left));
    DigitsAreNotGlyphs(Itoa(d.right));
    forall k | 0 <= k < |f| ensures f[k] !in "OoIl" {
      if k < |Itoa(d.left)| {
        assert f[k] == Itoa(d.left)[k];
      } else if k > |Itoa(d.left)| {
        assert f[k] == Itoa(d.right)[k - |Itoa(d.left)| - 1];
      }
    }
    DeglyphHomoglyphs(f, d.zeroPick, d.onePick);
  }

  lemma DigitsAreNotGlyphs(s: string)
    requires AllDigits(s)
    ensures forall k :: 0 <= k < |s| ==> s[k] !in "OoIl"
  {
    forall k | 0 <= k < |s| ensures s[k] !in "OoIl" {
      assert IsDigit(s[k]);
    }
  }

  /**
   * Nothing keeps a decoy apart from the answer: with operands 41 and 57 a
   * decoy row may show 98 too, and its token may equal the expected one.
   */
  lemma DecoyMayDuplicateAnswer()
    ensures exists d :: (WellFormed(d) && d.answer == 0
      && SlotSum(d, 1) == SlotSum(d, 0) == 98 && SlotData(d, 1) == SlotData(d, 0))
  {
    var token := [0, 1, 2, 3, 4, 5, 6, 7, 8, 9];
    var slot := Slot(50, 48, token, 0, 0);
    var d := Draws(41, 57, 0, token, [slot, slot, slot], 0, 0);
    assert WellFormed(d);
    assert SlotSum(d, 1) == 98;
  }
}
