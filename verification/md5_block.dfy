/** The unrolled block function, proved equal to the table-driven one. */
module Md5Block {
  import opened Bytes
  import opened Md5Padding
  import opened Md5Spec

  const T_MASK: Word := 0xFFFF_FFFF

  // ---------------------------------------------------------------- the schedule

  /** Four registers of any kind of word. */
  datatype Regs<W> = Regs(a: W, b: W, c: W, d: W)

  /** What a `SET` computes from its round, word index, shift, constant and registers. */
  type SetOp<!W> = (nat, nat, nat, Word, W, W, W, W) -> W

  /** The table-driven schedule with `op` for its operation. */
  function StepsBy<W>(op: SetOp<W>, q: Regs<W>, n: nat): Regs<W>
    requires n <= 64
  {
    if n == 0 then q
    else
      var p := StepsBy(op, q, n - 1);
      Regs(p.d, op((n - 1) / 16, Index(n - 1), Shift(n - 1), T(n - 1), p.a, p.b, p.c, p.d), p.b, p.c)
  }

  function Round1First<W>(op: SetOp<W>, ghost start: Regs<W>, q: Regs<W>, ghost n: nat): (r: Regs<W>)
    requires n == 0 && q == StepsBy(op, start, n)
    ensures r == StepsBy(op, start, n + 8)
  {
    var Regs(a, b, c, d) := q;
    var a := op(0, 0, 7, T_MASK ^ 0x28955b87, a, b, c, d);
    assert Regs(d, a, b, c) == StepsBy(op, start, n + 1);
    var d := op(0, 1, 12, T_MASK ^ 0x173848a9, d, a, b, c);
    assert Regs(c, d, a, b) == StepsBy(op, start, n + 2);
    var c := op(0, 2, 17, 0x242070db, c, d, a, b);
    assert Regs(b, c, d, a) == StepsBy(op, start, n + 3);
    var b := op(0, 3, 22, T_MASK ^ 0x3e423111, b, c, d, a);
    assert Regs(a, b, c, d) == StepsBy(op, start, n + 4);
    var a := op(0, 4, 7, T_MASK ^ 0x0a83f050, a, b, c, d);
    assert Regs(d, a, b, c) == StepsBy(op, start, n + 5);
    var d := op(0, 5, 12, 0x4787c62a, d, a, b, c);
    assert Regs(c, d, a, b) == StepsBy(op, start, n + 6);
    var c := op(0, 6, 17, T_MASK ^ 0x57cfb9ec, c, d, a, b);
    assert Regs(b, c, d, a) == StepsBy(op, start, n + 7);
    var b := op(0, 7, 22, T_MASK ^ 0x02b96afe, b, c, d, a);
    assert Regs(a, b, c, d) == StepsBy(op, start, n + 8);
    Regs(a, b, c, d)
  }

  function Round1Second<W>(op: SetOp<W>, ghost start: Regs<W>, q: Regs<W>, ghost n: nat): (r: Regs<W>)
    requires n == 8 && q == StepsBy(op, start, n)
    ensures r == StepsBy(op, start, n + 8)
  {
    var Regs(a, b, c, d) := q;
    var a := op(0, 8, 7, 0x698098d8, a, b, c, d);
    assert Regs(d, a, b, c) == StepsBy(op, start, n + 1);
    var d := op(0, 9, 12, T_MASK ^ 0x74bb0850, d, a, b, c);
    assert Regs(c, d, a, b) == StepsBy(op, start, n + 2);
    var c := op(0, 10, 17, T_MASK ^ 0x0000a44e, c, d, a, b);
    assert Regs(b, c, d, a) == StepsBy(op, start, n + 3);
    var b := op(0, 11, 22, T_MASK ^ 0x76a32841, b, c, d, a);
    assert Regs(a, b, c, d) == StepsBy(op, start, n + 4);
    var a := op(0, 12, 7, 0x6b901122, a, b, c, d);
    assert Regs(d, a, b, c) == StepsBy(op, start, n + 5);
    var d := op(0, 13, 12, T_MASK ^ 0x02678e6c, d, a, b, c);
    assert Regs(c, d, a, b) == StepsBy(op, start, n + 6);
    var c := op(0, 14, 17, T_MASK ^ 0x5986bc71, c, d, a, b);
    assert Regs(b, c, d, a) == StepsBy(op, start, n + 7);
    var b := op(0, 15, 22, 0x49b40821, b, c, d, a);
    assert Regs(a, b, c, d) == StepsBy(op, start, n + 8);
    Regs(a, b, c, d)
  }

  function Round2First<W>(op: SetOp<W>, ghost start: Regs<W>, q: Regs<W>, ghost n: nat): (r: Regs<W>)
    requires n == 16 && q == StepsBy(op, start, n)
    ensures r == StepsBy(op, start, n + 8)
  {
    var Regs(a, b, c, d) := q;
    var a := op(1, 1, 5, T_MASK ^ 0x09e1da9d, a, b, c, d);
    assert Regs(d, a, b, c) == StepsBy(op, start, n + 1);
    var d := op(1, 6, 9, T_MASK ^ 0x3fbf4cbf, d, a, b, c);
    assert Regs(c, d, a, b) == StepsBy(op, start, n + 2);
    var c := op(1, 11, 14, 0x265e5a51, c, d, a, b);
    assert Regs(b, c, d, a) == StepsBy(op, start, n + 3);
    var b := op(1, 0, 20, T_MASK ^ 0x16493855, b, c, d, a);
    assert Regs(a, b, c, d) == StepsBy(op, start, n + 4);
    var a := op(1, 5, 5, T_MASK ^ 0x29d0efa2, a, b, c, d);
    assert Regs(d, a, b, c) == StepsBy(op, start, n + 5);
    var d := op(1, 10, 9, 0x02441453, d, a, b, c);
    assert Regs(c, d, a, b) == StepsBy(op, start, n + 6);
    var c := op(1, 15, 14, T_MASK ^ 0x275e197e, c, d, a, b);
    assert Regs(b, c, d, a) == StepsBy(op, start, n + 7);
    var b := op(1, 4, 20, T_MASK ^ 0x182c0437, b, c, d, a);
    assert Regs(a, b, c, d) == StepsBy(op, start, n + 8);
    Regs(a, b, c, d)
  }

  function Round2Second<W>(op: SetOp<W>, ghost start: Regs<W>, q: Regs<W>, ghost n: nat): (r: Regs<W>)
    requires n == 24 && q == StepsBy(op, start, n)
    ensures r == StepsBy(op, start, n + 8)
  {
    var Regs(a, b, c, d) := q;
    var a := op(1, 9, 5, 0x21e1cde6, a, b, c, d);
    assert Regs(d, a, b, c) == StepsBy(op, start, n + 1);
    var d := op(1, 14, 9, T_MASK ^ 0x3cc8f829, d, a, b, c);
    assert Regs(c, d, a, b) == StepsBy(op, start, n + 2);
    var c := op(1, 3, 14, T_MASK ^ 0x0b2af278, c, d, a, b);
    assert Regs(b, c, d, a) == StepsBy(op, start, n + 3);
    var b := op(1, 8, 20, 0x455a14ed, b, c, d, a);
    assert Regs(a, b, c, d) == StepsBy(op, start, n + 4);
    var a := op(1, 13, 5, T_MASK ^ 0x561c16fa, a, b, c, d);
    assert Regs(d, a, b, c) == StepsBy(op, start, n + 5);
    var d := op(1, 2, 9, T_MASK ^ 0x03105c07, d, a, b, c);
    assert Regs(c, d, a, b) == StepsBy(op, start, n + 6);
    var c := op(1, 7, 14, 0x676f02d9, c, d, a, b);
    assert Regs(b, c, d, a) == StepsBy(op, start, n + 7);
    var b := op(1, 12, 20, T_MASK ^ 0x72d5b375, b, c, d, a);
    assert Regs(a, b, c, d) == StepsBy(op, start, n + 8);
    Regs(a, b, c, d)
  }

  function Round3First<W>(op: SetOp<W>, ghost start: Regs<W>, q: Regs<W>, ghost n: nat): (r: Regs<W>)
    requires n == 32 && q == StepsBy(op, start, n)
    ensures r == StepsBy(op, start, n + 8)
  {
    var Regs(a, b, c, d) := q;
    var a := op(2, 5, 4, T_MASK ^ 0x0005c6bd, a, b, c, d);
    assert Regs(d, a, b, c) == StepsBy(op, start, n + 1);
    var d := op(2, 8, 11, T_MASK ^ 0x788e097e, d, a, b, c);
    assert Regs(c, d, a, b) == StepsBy(op, start, n + 2);
    var c := op(2, 11, 16, 0x6d9d6122, c, d, a, b);
    assert Regs(b, c, d, a) == StepsBy(op, start, n + 3);
    var b := op(2, 14, 23, T_MASK ^ 0x021ac7f3, b, c, d, a);
    assert Regs(a, b, c, d) == StepsBy(op, start, n + 4);
    var a := op(2, 1, 4, T_MASK ^ 0x5b4115bb, a, b, c, d);
    assert Regs(d, a, b, c) == StepsBy(op, start, n + 5);
    var d := op(2, 4, 11, 0x4bdecfa9, d, a, b, c);
    assert Regs(c, d, a, b) == StepsBy(op, start, n + 6);
    var c := op(2, 7, 16, T_MASK ^ 0x0944b49f, c, d, a, b);
    assert Regs(b, c, d, a) == StepsBy(op, start, n + 7);
    var b := op(2, 10, 23, T_MASK ^ 0x4140438f, b, c, d, a);
    assert Regs(a, b, c, d) == StepsBy(op, start, n + 8);
    Regs(a, b, c, d)
  }

  function Round3Second<W>(op: SetOp<W>, ghost start: Regs<W>, q: Regs<W>, ghost n: nat): (r: Regs<W>)
    requires n == 40 && q == StepsBy(op, start, n)
    ensures r == StepsBy(op, start, n + 8)
  {
    var Regs(a, b, c, d) := q;
    var a := op(2, 13, 4, 0x289b7ec6, a, b, c, d);
    assert Regs(d, a, b, c) == StepsBy(op, start, n + 1);
    var d := op(2, 0, 11, T_MASK ^ 0x155ed805, d, a, b, c);
    assert Regs(c, d, a, b) == StepsBy(op, start, n + 2);
    var c := op(2, 3, 16, T_MASK ^ 0x2b10cf7a, c, d, a, b);
    assert Regs(b, c, d, a) == StepsBy(op, start, n + 3);
    var b := op(2, 6, 23, 0x04881d05, b, c, d, a);
    assert Regs(a, b, c, d) == StepsBy(op, start, n + 4);
    var a := op(2, 9, 4, T_MASK ^ 0x262b2fc6, a, b, c, d);
    assert Regs(d, a, b, c) == StepsBy(op, start, n + 5);
    var d := op(2, 12, 11, T_MASK ^ 0x1924661a, d, a, b, c);
    assert Regs(c, d, a, b) == StepsBy(op, start, n + 6);
    var c := op(2, 15, 16, 0x1fa27cf8, c, d, a, b);
    assert Regs(b, c, d, a) == StepsBy(op, start, n + 7);
    var b := op(2, 2, 23, T_MASK ^ 0x3b53a99a, b, c, d, a);
    assert Regs(a, b, c, d) == StepsBy(op, start, n + 8);
    Regs(a, b, c, d)
  }

  function Round4First<W>(op: SetOp<W>, ghost start: Regs<W>, q: Regs<W>, ghost n: nat): (r: Regs<W>)
    requires n == 48 && q == StepsBy(op, start, n)
    ensures r == StepsBy(op, start, n + 8)
  {
    var Regs(a, b, c, d) := q;
    var a := op(3, 0, 6, T_MASK ^ 0x0bd6ddbb, a, b, c, d);
    assert Regs(d, a, b, c) == StepsBy(op, start, n + 1);
    var d := op(3, 7, 10, 0x432aff97, d, a, b, c);
    assert Regs(c, d, a, b) == StepsBy(op, start, n + 2);
    var c := op(3, 14, 15, T_MASK ^ 0x546bdc58, c, d, a, b);
    assert Regs(b, c, d, a) == StepsBy(op, start, n + 3);
    var b := op(3, 5, 21, T_MASK ^ 0x036c5fc6, b, c, d, a);
    assert Regs(a, b, c, d) == StepsBy(op, start, n + 4);
    var a := op(3, 12, 6, 0x655b59c3, a, b, c, d);
    assert Regs(d, a, b, c) == StepsBy(op, start, n + 5);
    var d := op(3, 3, 10, T_MASK ^ 0x70f3336d, d, a, b, c);
    assert Regs(c, d, a, b) == StepsBy(op, start, n + 6);
    var c := op(3, 10, 15, T_MASK ^ 0x00100b82, c, d, a, b);
    assert Regs(b, c, d, a) == StepsBy(op, start, n + 7);
    var b := op(3, 1, 21, T_MASK ^ 0x7a7ba22e, b, c, d, a);
    assert Regs(a, b, c, d) == StepsBy(op, start, n + 8);
    Regs(a, b, c, d)
  }

  function Round4Second<W>(op: SetOp<W>, ghost start: Regs<W>, q: Regs<W>, ghost n: nat): (r: Regs<W>)
    requires n == 56 && q == StepsBy(op, start, n)
    ensures r == StepsBy(op, start, n + 8)
  {
    var Regs(a, b, c, d) := q;
    var a := op(3, 8, 6, 0x6fa87e4f, a, b, c, d);
    assert Regs(d, a, b, c) == StepsBy(op, start, n + 1);
    var d := op(3, 15, 10, T_MASK ^ 0x01d3191f, d, a, b, c);
    assert Regs(c, d, a, b) == StepsBy(op, start, n + 2);
    var c := op(3, 6, 15, T_MASK ^ 0x5cfebceb, c, d, a, b);
    assert Regs(b, c, d, a) == StepsBy(op, start, n + 3);
    var b := op(3, 13, 21, 0x4e0811a1, b, c, d, a);
    assert Regs(a, b, c, d) == StepsBy(op, start, n + 4);
    var a := op(3, 4, 6, T_MASK ^ 0x08ac817d, a, b, c, d);
    assert Regs(d, a, b, c) == StepsBy(op, start, n + 5);
    var d := op(3, 11, 10, T_MASK ^ 0x42c50dca, d, a, b, c);
    assert Regs(c, d, a, b) == StepsBy(op, start, n + 6);
    var c := op(3, 2, 15, 0x2ad7d2bb, c, d, a, b);
    assert Regs(b, c, d, a) == StepsBy(op, start, n + 7);
    var b := op(3, 9, 21, T_MASK ^ 0x14792c6e, b, c, d, a);
    assert Regs(a, b, c, d) == StepsBy(op, start, n + 8);
    Regs(a, b, c, d)
  }

  /** The sixty-four updates in place, in the order and with the indices, shifts and constants the code
      writes out, are the table-driven schedule, whatever a single update computes. */
  function Unrolled<W>(op: SetOp<W>, q: Regs<W>): (r: Regs<W>)
    ensures r == StepsBy(op, q, 64)
  {
    var r := Round1First(op, q, q, 0);
    var r := Round1Second(op, q, r, 8);
    var r := Round2First(op, q, r, 16);
    var r := Round2Second(op, q, r, 24);
    var r := Round3First(op, q, r, 32);
    var r := Round3Second(op, q, r, 40);
    var r := Round4First(op, q, r, 48);
    Round4Second(op, q, r, 56)
  }

  // ---------------------------------------------------------------- the macros

  function MacroF(x: Word, y: Word, z: Word): Word { (x & y) | (!x & z) }
  function MacroG(x: Word, y: Word, z: Word): Word { (x & z) | (y & !z) }
  function MacroH(x: Word, y: Word, z: Word): Word { x ^ y ^ z }
  function MacroI(x: Word, y: Word, z: Word): Word { y ^ (x | !z) }

  function MacroMix(round: nat, x: Word, y: Word, z: Word): Word {
    match round
    case 0 => MacroF(x, y, z)
    case 1 => MacroG(x, y, z)
    case 2 => MacroH(x, y, z)
    case _ => MacroI(x, y, z)
  }

  /** `ROTATE_LEFT`: shift both ways and join. */
  function RotateLeft(x: Word, n: Word): Word
    requires n <= 32
  {
    (x << n) | (x >> (32 - n))
  }

  /** `SET` of the four rounds over the words `x`; the code only uses indices below 16 and shifts
      below 32. */
  function Update(x: seq<Word>, round: nat, k: nat, s: nat, ti: Word, a: Word, b: Word, c: Word, d: Word): Word {
    if k < |x| && s < 32 then Turn(Plus(Plus(Plus(a, MacroMix(round, b, c, d)), x[k]), ti), s, b) else a
  }

  function Amount(s: nat): (n: Word)
    requires s < 32
    ensures n <= 32
  {
    s as Word
  }

  function Turn(t: Word, s: nat, b: Word): Word
    requires s < 32
  {
    Plus(RotateLeft(t, Amount(s)), b)
  }

  function MacroSet(x: seq<Word>): SetOp<Word> {
    (round: nat, k: nat, s: nat, ti: Word, a: Word, b: Word, c: Word, d: Word) =>
      Update(x, round, k, s, ti, a, b, c, d)
  }

  /** Shifting both ways and joining is rotation, for the shifts of each round. */
  lemma RotateF(x: Word)
    ensures RotateLeft(x, Amount(7)) == Rotate(x, 7) && RotateLeft(x, Amount(12)) == Rotate(x, 12)
    ensures RotateLeft(x, Amount(17)) == Rotate(x, 17) && RotateLeft(x, Amount(22)) == Rotate(x, 22)
  {
    assert Amount(7) == 7 && Amount(12) == 12 && Amount(17) == 17 && Amount(22) == 22;
  }

  lemma RotateG(x: Word)
    ensures RotateLeft(x, Amount(5)) == Rotate(x, 5) && RotateLeft(x, Amount(9)) == Rotate(x, 9)
    ensures RotateLeft(x, Amount(14)) == Rotate(x, 14) && RotateLeft(x, Amount(20)) == Rotate(x, 20)
  {
    assert Amount(5) == 5 && Amount(9) == 9 && Amount(14) == 14 && Amount(20) == 20;
  }

  lemma RotateH(x: Word)
    ensures RotateLeft(x, Amount(4)) == Rotate(x, 4) && RotateLeft(x, Amount(11)) == Rotate(x, 11)
    ensures RotateLeft(x, Amount(16)) == Rotate(x, 16) && RotateLeft(x, Amount(23)) == Rotate(x, 23)
  {
    assert Amount(4) == 4 && Amount(11) == 11 && Amount(16) == 16 && Amount(23) == 23;
  }

  lemma RotateI(x: Word)
    ensures RotateLeft(x, Amount(6)) == Rotate(x, 6) && RotateLeft(x, Amount(10)) == Rotate(x, 10)
    ensures RotateLeft(x, Amount(15)) == Rotate(x, 15) && RotateLeft(x, Amount(21)) == Rotate(x, 21)
  {
    assert Amount(6) == 6 && Amount(10) == 10 && Amount(15) == 15 && Amount(21) == 21;
  }

  predicate IsShift(s: nat) {
    s in {4, 5, 6, 7, 9, 10, 11, 12, 14, 15, 16, 17, 20, 21, 22, 23}
  }

  lemma RotateBy(x: Word, s: nat)
    requires IsShift(s)
    ensures RotateLeft(x, Amount(s)) == Rotate(x, s)
  {
    match s
    case 4 => RotateH(x);
    case 5 => RotateG(x);
    case 6 => RotateI(x);
    case 7 => RotateF(x);
    case 9 => RotateG(x);
    case 10 => RotateI(x);
    case 11 => RotateH(x);
    case 12 => RotateF(x);
    case 14 => RotateG(x);
    case 15 => RotateI(x);
    case 16 => RotateH(x);
    case 17 => RotateF(x);
    case 20 => RotateG(x);
    case 21 => RotateI(x);
    case 22 => RotateF(x);
    case _ => RotateH(x);
  }

  lemma ShiftIsShift(i: nat)
    requires i < 64
    ensures IsShift(Shift(i))
  {
  }

  lemma SameMacros(x: Word, y: Word, z: Word)
    ensures MacroF(x, y, z) == F(x, y, z) && MacroG(x, y, z) == G(x, y, z)
    ensures MacroH(x, y, z) == H(x, y, z) && MacroI(x, y, z) == I(x, y, z)
  {
  }

  lemma MixIsMacro(round: nat, x: Word, y: Word, z: Word)
    ensures MacroMix(round, x, y, z) == Mix(round, x, y, z)
  {
    match round
    case 0 => SameMacros(x, y, z);
    case 1 => SameMacros(x, y, z);
    case 2 => SameMacros(x, y, z);
    case _ => SameMacros(x, y, z);
  }

  lemma TurnIsRotate(t: Word, s: nat, b: Word)
    requires IsShift(s)
    ensures Turn(t, s, b) == Plus(Rotate(t, s), b)
  {
    RotateBy(t, s);
  }

  lemma UpdateIsOperation(x: seq<Word>, round: nat, k: nat, s: nat, ti: Word, q: Quad)
    requires k < |x| && IsShift(s)
    ensures Update(x, round, k, s, ti, q.a, q.b, q.c, q.d) == Operation(round, q, x[k], ti, s)
  {
    MixIsMacro(round, q.b, q.c, q.d);
    TurnIsRotate(Plus(Plus(Plus(q.a, Mix(round, q.b, q.c, q.d)), x[k]), ti), s, q.b);
  }

  /** One `SET` with the schedule's arguments is one operation of the table-driven form. */
  lemma SetIsStep(q: Quad, x: seq<Word>, i: nat)
    requires |x| == 16 && i < 64
    ensures MacroSet(x)(i / 16, Index(i), Shift(i), T(i), q.a, q.b, q.c, q.d) == Step(q, x, i).b
  {
    ShiftIsShift(i);
    UpdateIsOperation(x, i / 16, Index(i), Shift(i), T(i), q);
  }

  lemma {:induction false} ScheduleIsSteps(q: Quad, x: seq<Word>, n: nat)
    requires |x| == 16 && n <= 64
    ensures var r := StepsBy(MacroSet(x), Regs(q.a, q.b, q.c, q.d), n);
            Quad(r.a, r.b, r.c, r.d) == Steps(q, x, n)
  {
    if n > 0 {
      ScheduleIsSteps(q, x, n - 1);
      SetIsStep(Steps(q, x, n - 1), x, n - 1);
    }
  }

  // ---------------------------------------------------------------- the block function

  function SumBytes(b0: bv8, b1: bv8, b2: bv8, b3: bv8): Word {
    (b0 as Word) + ((b1 as Word) << 8) + ((b2 as Word) << 16) + ((b3 as Word) << 24)
  }

  /** Adding shifted bytes is joining them, and every byte can be read back from its place. */
  lemma SumIsJoin(b0: bv8, b1: bv8, b2: bv8, b3: bv8)
    ensures SumBytes(b0, b1, b2, b3) == JoinBytes(b0, b1, b2, b3)
    ensures var w := JoinBytes(b0, b1, b2, b3);
            ByteOf(w, 0) == b0 && ByteOf(w, 1) == b1 && ByteOf(w, 2) == b2 && ByteOf(w, 3) == b3
  {
  }

  function LoadWord(b0: Byte, b1: Byte, b2: Byte, b3: Byte): (w: Word)
    ensures w == WordOf(b0, b1, b2, b3)
  {
    SumIsJoin(b0 as bv8, b1 as bv8, b2 as bv8, b3 as bv8);
    SumBytes(b0 as bv8, b1 as bv8, b2 as bv8, b3 as bv8)
  }

  /** The byte-wise loop for big-endian machines computes the words a little-endian machine reads
      directly, which are the low-order-byte-first words of the standard. */
  method LoadWords(block: seq<Byte>) returns (x: seq<Word>)
    requires |block| == BLOCK
    ensures x == Loaded(block) == Words(block)
  {
    ghost var words := Words(block);
    x := [];
    for i := 0 to 16
      invariant x == words[..i]
    {
      x := x + [LoadWord(block[4 * i], block[4 * i + 1], block[4 * i + 2], block[4 * i + 3])];
      assert words[..i + 1] == words[..i] + [words[i]];
    }
  }

  function Loaded(block: seq<Byte>): (x: seq<Word>)
    requires |block| == BLOCK
    ensures x == Words(block)
  {
    seq(16, i requires 0 <= i < 16 => LoadWord(block[4 * i], block[4 * i + 1], block[4 * i + 2], block[4 * i + 3]))
  }

  /** `md5_process`: load, sixty-four updates, and the final additions. */
  function Process(abcd: Quad, block: seq<Byte>): Quad
    requires |block| == BLOCK
  {
    var q := Unrolled(MacroSet(Loaded(block)), Regs(abcd.a, abcd.b, abcd.c, abcd.d));
    Quad(Plus(abcd.a, q.a), Plus(abcd.b, q.b), Plus(abcd.c, q.c), Plus(abcd.d, q.d))
  }

  /** The block function as the code computes it is the standard's. */
  lemma ProcessIsCompress(abcd: Quad, block: seq<Byte>)
    requires |block| == BLOCK
    ensures Process(abcd, block) == Compress(abcd, block)
  {
    var x := Words(block);
    ScheduleIsSteps(abcd, x, 4 * |x|);
  }
}
