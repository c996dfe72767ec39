/** Where the constants of MD5 come from: entry `i` of the table is the integer part of 4294967296 times
    the absolute value of the sine of `i + 1` radians. */
module Md5Sine {
  import opened Md5Spec

  // ---------------------------------------------------------------- the sine of whole numbers

  /** The terms of the power series of sine and cosine at 1. */
  function SinTerm(j: nat): real {
    if j == 0 then 1.0 else 0.0 - SinTerm(j - 1) / ((2 * j) * (2 * j + 1)) as real
  }

  function CosTerm(j: nat): real {
    if j == 0 then 1.0 else 0.0 - CosTerm(j - 1) / ((2 * j - 1) * (2 * j)) as real
  }

  function SinSum(n: nat): real {
    if n == 0 then 0.0 else SinSum(n - 1) + SinTerm(n - 1)
  }

  function CosSum(n: nat): real {
    if n == 0 then 0.0 else CosSum(n - 1) + CosTerm(n - 1)
  }

  /** The addition theorems for one radian more. */
  ghost predicate OneMore(sin: nat -> real, cos: nat -> real, n: nat) {
    && sin(n + 1) == sin(n) * cos(1) + cos(n) * sin(1)
    && cos(n + 1) == cos(n) * cos(1) - sin(n) * sin(1)
  }

  /** An alternating series with falling terms lies between its partial sums. */
  ghost predicate Enclosed(sin: nat -> real, cos: nat -> real, n: nat) {
    SinSum(2 * n) <= sin(1) <= SinSum(2 * n + 1) && CosSum(2 * n) <= cos(1) <= CosSum(2 * n + 1)
  }

  /** What sine and cosine of whole numbers of radians satisfy, and only they. */
  ghost predicate Sine(sin: nat -> real, cos: nat -> real) {
    && sin(0) == 0.0 && cos(0) == 1.0
    && (forall n :: OneMore(sin, cos, n))
    && (forall n :: Enclosed(sin, cos, n))
  }

  // ---------------------------------------------------------------- bounds

  const UNIT: real := 0.0000000000000000000000000000000001

  predicate Close(x: real, y: real, units: real) {
    0.0 - units * UNIT <= x - y <= units * UNIT
  }

  predicate Small(x: real) { -1.0 <= x <= 1.0 }

  ghost predicate Near(sin: nat -> real, cos: nat -> real, n: nat, s: real, c: real, units: real) {
    Close(sin(n), s, units) && Close(cos(n), c, units)
  }

  /** The integer part of 4294967296 times the absolute value. */
  predicate Within(s: real, t: real) {
    var a := if s < 0.0 then 0.0 - s else s;
    t <= 4294967296.0 * a < t + 1.0
  }

  lemma NotNegative(a: real, b: real)
    requires a >= 0.0 && b >= 0.0
    ensures a * b >= 0.0
  {
  }

  lemma Expand(d: real, y: real, e: real)
    ensures (e - d) * (1.0 + y) + (e + d) * (1.0 - y) == 2.0 * e - 2.0 * (d * y)
    ensures (e - d) * (1.0 - y) + (e + d) * (1.0 + y) == 2.0 * e + 2.0 * (d * y)
  {
  }

  lemma Halves(z: real, e: real, p: real, q: real, r: real, t: real)
    requires p >= 0.0 && q >= 0.0 && r >= 0.0 && t >= 0.0 && p + q == 2.0 * e - 2.0 * z && r + t == 2.0 * e + 2.0 * z
    ensures 0.0 - e <= z <= e
  {
  }

  lemma ScaledDown(d: real, y: real, e: real)
    requires 0.0 - e <= d <= e && Small(y)
    ensures 0.0 - e <= d * y <= e
  {
    NotNegative(e - d, 1.0 + y);
    NotNegative(e + d, 1.0 - y);
    NotNegative(e - d, 1.0 - y);
    NotNegative(e + d, 1.0 + y);
    Expand(d, y, e);
    Halves(d * y, e, (e - d) * (1.0 + y), (e + d) * (1.0 - y), (e - d) * (1.0 - y), (e + d) * (1.0 + y));
  }

  lemma CloseProduct(x: real, y: real, x': real, y': real, e: real, f: real)
    requires Close(x, x', e) && Close(y, y', f) && Small(y) && Small(x')
    ensures Close(x * y, x' * y', e + f)
  {
    ScaledDown(x - x', y, e * UNIT);
    ScaledDown(y - y', x', f * UNIT);
    assert x * y - x' * y' == (x - x') * y + (y - y') * x';
    assert e * UNIT + f * UNIT == (e + f) * UNIT;
  }

  lemma FirstRadian(sin: nat -> real, cos: nat -> real)
    requires Sine(sin, cos)
    ensures Close(sin(1), 0.8414709848078965066525023216302990, 1.0) && Close(cos(1), 0.5403023058681397174009366074429766, 1.0)
  {
    assert Enclosed(sin, cos, 8);
    SinBounds();
    CosBounds();
  }

  lemma SinBounds()
    ensures 0.8414709848078965066525023216302990 - UNIT <= SinSum(16) && SinSum(17) <= 0.8414709848078965066525023216302990 + UNIT
  {
    assert SinTerm(0) == 1.0 / 1.0;
    assert SinTerm(1) == -1.0 / 6.0;
    assert SinTerm(2) == 1.0 / 120.0;
    assert SinTerm(3) == -1.0 / 5040.0;
    assert SinTerm(4) == 1.0 / 362880.0;
    assert SinTerm(5) == -1.0 / 39916800.0;
    assert SinTerm(6) == 1.0 / 6227020800.0;
    assert SinTerm(7) == -1.0 / 1307674368000.0;
    assert SinTerm(8) == 1.0 / 355687428096000.0;
    assert SinTerm(9) == -1.0 / 121645100408832000.0;
    assert SinTerm(10) == 1.0 / 51090942171709440000.0;
    assert SinTerm(11) == -1.0 / 25852016738884976640000.0;
    assert SinTerm(12) == 1.0 / 15511210043330985984000000.0;
    assert SinTerm(13) == -1.0 / 10888869450418352160768000000.0;
    assert SinTerm(14) == 1.0 / 8841761993739701954543616000000.0;
    assert SinTerm(15) == -1.0 / 8222838654177922817725562880000000.0;
    assert SinTerm(16) == 1.0 / 8683317618811886495518194401280000000.0;
    assert SinSum(1) == SinSum(0) + SinTerm(0);
    assert SinSum(2) == SinSum(1) + SinTerm(1);
    assert SinSum(3) == SinSum(2) + SinTerm(2);
    assert SinSum(4) == SinSum(3) + SinTerm(3);
    assert SinSum(5) == SinSum(4) + SinTerm(4);
    assert SinSum(6) == SinSum(5) + SinTerm(5);
    assert SinSum(7) == SinSum(6) + SinTerm(6);
    assert SinSum(8) == SinSum(7) + SinTerm(7);
    assert SinSum(9) == SinSum(8) + SinTerm(8);
    assert SinSum(10) == SinSum(9) + SinTerm(9);
    assert SinSum(11) == SinSum(10) + SinTerm(10);
    assert SinSum(12) == SinSum(11) + SinTerm(11);
    assert SinSum(13) == SinSum(12) + SinTerm(12);
    assert SinSum(14) == SinSum(13) + SinTerm(13);
    assert SinSum(15) == SinSum(14) + SinTerm(14);
    assert SinSum(16) == SinSum(15) + SinTerm(15);
    assert SinSum(17) == SinSum(16) + SinTerm(16);
  }

  lemma CosBounds()
    ensures 0.5403023058681397174009366074429766 - UNIT <= CosSum(16) && CosSum(17) <= 0.5403023058681397174009366074429766 + UNIT
  {
    assert CosTerm(0) == 1.0 / 1.0;
    assert CosTerm(1) == -1.0 / 2.0;
    assert CosTerm(2) == 1.0 / 24.0;
    assert CosTerm(3) == -1.0 / 720.0;
    assert CosTerm(4) == 1.0 / 40320.0;
    assert CosTerm(5) == -1.0 / 3628800.0;
    assert CosTerm(6) == 1.0 / 479001600.0;
    assert CosTerm(7) == -1.0 / 87178291200.0;
    assert CosTerm(8) == 1.0 / 20922789888000.0;
    assert CosTerm(9) == -1.0 / 6402373705728000.0;
    assert CosTerm(10) == 1.0 / 2432902008176640000.0;
    assert CosTerm(11) == -1.0 / 1124000727777607680000.0;
    assert CosTerm(12) == 1.0 / 620448401733239439360000.0;
    assert CosTerm(13) == -1.0 / 403291461126605635584000000.0;
    assert CosTerm(14) == 1.0 / 304888344611713860501504000000.0;
    assert CosTerm(15) == -1.0 / 265252859812191058636308480000000.0;
    assert CosTerm(16) == 1.0 / 263130836933693530167218012160000000.0;
    assert CosSum(1) == CosSum(0) + CosTerm(0);
    assert CosSum(2) == CosSum(1) + CosTerm(1);
    assert CosSum(3) == CosSum(2) + CosTerm(2);
    assert CosSum(4) == CosSum(3) + CosTerm(3);
    assert CosSum(5) == CosSum(4) + CosTerm(4);
    assert CosSum(6) == CosSum(5) + CosTerm(5);
    assert CosSum(7) == CosSum(6) + CosTerm(6);
    assert CosSum(8) == CosSum(7) + CosTerm(7);
    assert CosSum(9) == CosSum(8) + CosTerm(8);
    assert CosSum(10) == CosSum(9) + CosTerm(9);
    assert CosSum(11) == CosSum(10) + CosTerm(10);
    assert CosSum(12) == CosSum(11) + CosTerm(11);
    assert CosSum(13) == CosSum(12) + CosTerm(12);
    assert CosSum(14) == CosSum(13) + CosTerm(13);
    assert CosSum(15) == CosSum(14) + CosTerm(14);
    assert CosSum(16) == CosSum(15) + CosTerm(15);
    assert CosSum(17) == CosSum(16) + CosTerm(16);
  }

  lemma SumsClose(p: real, q: real, a: real, b: real, x: real, e: real)
    requires Close(p, a, e + 1.0) && Close(q, b, e + 1.0)
    ensures Close(a + b, x, 2.0) ==> Close(p + q, x, 2.0 * e + 4.0)
    ensures Close(a - b, x, 2.0) ==> Close(p - q, x, 2.0 * e + 4.0)
  {
  }

  /** One radian further: known bounds give bounds, at most twice as wide and a little. */
  lemma Turn(sin: nat -> real, cos: nat -> real, n: nat, s: real, c: real, s': real, c': real, e: real)
    requires Sine(sin, cos) && Near(sin, cos, n, s, c, e) && Small(s) && Small(c)
    requires Close(s * 0.5403023058681397174009366074429766 + c * 0.8414709848078965066525023216302990, s', 2.0) && Close(c * 0.5403023058681397174009366074429766 - s * 0.8414709848078965066525023216302990, c', 2.0)
    ensures Near(sin, cos, n + 1, s', c', 2.0 * e + 4.0)
  {
    FirstRadian(sin, cos);
    assert OneMore(sin, cos, n);
    TurnValues(sin(n), cos(n), sin(1), cos(1), s, c, s', c', e);
  }

  lemma TurnValues(x: real, y: real, x1: real, y1: real, s: real, c: real, s': real, c': real, e: real)
    requires Close(x, s, e) && Close(y, c, e) && Small(s) && Small(c)
    requires Close(x1, 0.8414709848078965066525023216302990, 1.0) && Close(y1, 0.5403023058681397174009366074429766, 1.0)
    requires Close(s * 0.5403023058681397174009366074429766 + c * 0.8414709848078965066525023216302990, s', 2.0) && Close(c * 0.5403023058681397174009366074429766 - s * 0.8414709848078965066525023216302990, c', 2.0)
    ensures Close(x * y1 + y * x1, s', 2.0 * e + 4.0) && Close(y * y1 - x * x1, c', 2.0 * e + 4.0)
  {
    var s1, c1 := 0.8414709848078965066525023216302990, 0.5403023058681397174009366074429766;
    assert Small(x1) && Small(y1);
    assert Close(x * y1 + y * x1, s', 2.0 * e + 4.0) by {
      CloseProduct(x, y1, s, c1, e, 1.0);
      CloseProduct(y, x1, c, s1, e, 1.0);
      SumsClose(x * y1, y * x1, s * c1, c * s1, s', e);
    }
    CloseProduct(y, y1, c, c1, e, 1.0);
    CloseProduct(x, x1, s, s1, e, 1.0);
    SumsClose(y * y1, x * x1, c * c1, s * s1, c', e);
  }

  // ---------------------------------------------------------------- the table

  lemma Origin(sin: nat -> real, cos: nat -> real)
    requires Sine(sin, cos)
    ensures Near(sin, cos, 0, 0.0000000000000000000000000000000000, 1.0000000000000000000000000000000000, 4.0)
  {
  }

  lemma Angles8(sin: nat -> real, cos: nat -> real)
    requires Sine(sin, cos)
    requires Near(sin, cos, 0, 0.0000000000000000000000000000000000, 1.0000000000000000000000000000000000, 4.0)
    ensures Near(sin, cos, 8, 0.9893582466233817778081235982452887, -0.1455000338086135258688413818311947, 2044.0)
    ensures Within(sin(1), 3614090360.0)
    ensures Within(sin(2), 3905402710.0)
    ensures Within(sin(3), 606105819.0)
    ensures Within(sin(4), 3250441966.0)
    ensures Within(sin(5), 4118548399.0)
    ensures Within(sin(6), 1200080426.0)
    ensures Within(sin(7), 2821735955.0)
    ensures Within(sin(8), 4249261313.0)
  {
    Turn(sin, cos, 0, 0.0000000000000000000000000000000000, 1.0000000000000000000000000000000000, 0.8414709848078965066525023216302990, 0.5403023058681397174009366074429766, 4.0);
    Turn(sin, cos, 1, 0.8414709848078965066525023216302990, 0.5403023058681397174009366074429766, 0.9092974268256816953960198659117448, -0.4161468365471423869975682295007622, 12.0);
    Turn(sin, cos, 2, 0.9092974268256816953960198659117448, -0.4161468365471423869975682295007622, 0.1411200080598672221007448028081103, -0.9899924966004454572715727947312613, 28.0);
    Turn(sin, cos, 3, 0.1411200080598672221007448028081103, -0.9899924966004454572715727947312613, -0.7568024953079282513726390945118291, -0.6536436208636119146391681830977504, 60.0);
    Turn(sin, cos, 4, -0.7568024953079282513726390945118291, -0.6536436208636119146391681830977504, -0.9589242746631384688931544061559940, 0.2836621854632262644666391715135573, 124.0);
    Turn(sin, cos, 5, -0.9589242746631384688931544061559940, 0.2836621854632262644666391715135573, -0.2794154981989258728115554466118948, 0.9601702866503660205456522979229244, 252.0);
    Turn(sin, cos, 6, -0.2794154981989258728115554466118948, 0.9601702866503660205456522979229244, 0.6569865987187890903969990915936352, 0.7539022543433046381411975217191820, 508.0);
    Turn(sin, cos, 7, 0.6569865987187890903969990915936352, 0.7539022543433046381411975217191820, 0.9893582466233817778081235982452887, -0.1455000338086135258688413818311947, 1020.0);
  }

  lemma Angles16(sin: nat -> real, cos: nat -> real)
    requires Sine(sin, cos)
    requires Near(sin, cos, 8, 0.9893582466233817778081235982452887, -0.1455000338086135258688413818311947, 2044.0)
    ensures Near(sin, cos, 16, -0.2879033166650652947844562482186175, -0.9576594803233846418996372326511035, 524284.0)
    ensures Within(sin(9), 1770035416.0)
    ensures Within(sin(10), 2336552879.0)
    ensures Within(sin(11), 4294925233.0)
    ensures Within(sin(12), 2304563134.0)
    ensures Within(sin(13), 1804603682.0)
    ensures Within(sin(14), 4254626195.0)
    ensures Within(sin(15), 2792965006.0)
    ensures Within(sin(16), 1236535329.0)
  {
    Turn(sin, cos, 8, 0.9893582466233817778081235982452887, -0.1455000338086135258688413818311947, 0.4121184852417565697562725663524352, -0.9111302618846769883682947111811653, 2044.0);
    Turn(sin, cos, 9, 0.4121184852417565697562725663524352, -0.9111302618846769883682947111811653, -0.5440211108893698134047476618513773, -0.8390715290764524522588639478240648, 4092.0);
    Turn(sin, cos, 10, -0.5440211108893698134047476618513773, -0.8390715290764524522588639478240648, -0.9999902065507034570515648990255221, 0.0044256979880507857483550247239416, 8188.0);
    Turn(sin, cos, 11, -0.9999902065507034570515648990255221, 0.0044256979880507857483550247239416, -0.5365729180004349716653742282424018, 0.8438539587324921046539552931736218, 16380.0);
    Turn(sin, cos, 12, -0.5365729180004349716653742282424018, 0.8438539587324921046539552931736218, 0.4201670368266409218689550354768828, 0.9074467814501962138526861554744758, 32764.0);
    Turn(sin, cos, 13, 0.4201670368266409218689550354768828, 0.9074467814501962138526861554744758, 0.9906073556948703078753548040145856, 0.1367372182078335942489288766717382, 65532.0);
    Turn(sin, cos, 14, 0.9906073556948703078753548040145856, 0.1367372182078335942489288766717382, 0.6502878401571168658297402709888703, -0.7596879128588212738481464036332805, 131068.0);
    Turn(sin, cos, 15, 0.6502878401571168658297402709888703, -0.7596879128588212738481464036332805, -0.2879033166650652947844562482186175, -0.9576594803233846418996372326511035, 262140.0);
  }

  lemma Angles24(sin: nat -> real, cos: nat -> real)
    requires Sine(sin, cos)
    requires Near(sin, cos, 16, -0.2879033166650652947844562482186175, -0.9576594803233846418996372326511035, 524284.0)
    ensures Near(sin, cos, 24, -0.9055783620066238451357933585277933, 0.4241790073369969759370509447592065, 134217724.0)
    ensures Within(sin(17), 4129170786.0)
    ensures Within(sin(18), 3225465664.0)
    ensures Within(sin(19), 643717713.0)
    ensures Within(sin(20), 3921069994.0)
    ensures Within(sin(21), 3593408605.0)
    ensures Within(sin(22), 38016083.0)
    ensures Within(sin(23), 3634488961.0)
    ensures Within(sin(24), 3889429448.0)
  {
    Turn(sin, cos, 16, -0.2879033166650652947844562482186175, -0.9576594803233846418996372326511035, -0.9613974918795568572616369448691561, -0.2751633380515969222203426565518629, 524284.0);
    Turn(sin, cos, 17, -0.9613974918795568572616369448691561, -0.2751633380515969222203426565518629, -0.7509872467716761037501560844471145, 0.6603167082440801448161000447904508, 1048572.0);
    Turn(sin, cos, 18, -0.7509872467716761037501560844471145, 0.6603167082440801448161000447904508, 0.1498772096629523297542393212382539, 0.9887046181866692528983528565481573, 2097148.0);
    Turn(sin, cos, 19, 0.1498772096629523297542393212382539, 0.9887046181866692528983528565481573, 0.9129452507276276543760999838456823, 0.4080820618133919860622678609276450, 4194300.0);
    Turn(sin, cos, 20, 0.9129452507276276543760999838456823, 0.4080820618133919860622678609276450, 0.8366556385360560318664807702450238, -0.5477292602242684213842711329509820, 8388604.0);
    Turn(sin, cos, 21, 0.8366556385360560318664807702450238, -0.5477292602242684213842711329509820, -0.0088513092904038759216902568157723, -0.9999608263946371264541747392126938, 16777212.0);
    Turn(sin, cos, 22, -0.0088513092904038759216902568157723, -0.9999608263946371264541747392126938, -0.8462204041751706352413262719055959, -0.5328330203333975552157576571641258, 33554428.0);
    Turn(sin, cos, 23, -0.8462204041751706352413262719055959, -0.5328330203333975552157576571641258, -0.9055783620066238451357933585277933, 0.4241790073369969759370509447592065, 67108860.0);
  }

  lemma Angles32(sin: nat -> real, cos: nat -> real)
    requires Sine(sin, cos)
    requires Near(sin, cos, 24, -0.9055783620066238451357933585277933, 0.4241790073369969759370509447592065, 134217724.0)
    ensures Near(sin, cos, 32, 0.5514266812416905506615581668457128, 0.8342233605065102722155264708702923, 34359738364.0)
    ensures Within(sin(25), 568446438.0)
    ensures Within(sin(26), 3275163606.0)
    ensures Within(sin(27), 4107603335.0)
    ensures Within(sin(28), 1163531501.0)
    ensures Within(sin(29), 2850285829.0)
    ensures Within(sin(30), 4243563512.0)
    ensures Within(sin(31), 1735328473.0)
    ensures Within(sin(32), 2368359562.0)
  {
    Turn(sin, cos, 24, -0.9055783620066238451357933585277933, 0.4241790073369969759370509447592065, -0.1323517500977730289020050938836063, 0.9912028118634735980832947188159242, 134217724.0);
    Turn(sin, cos, 25, -0.1323517500977730289020050938836063, 0.9912028118634735980832947188159242, 0.7625584504796027375158232932045630, 0.6469193223286403427213839018889016, 268435452.0);
    Turn(sin, cos, 26, 0.7625584504796027375158232932045630, 0.6469193223286403427213839018889016, 0.9563759284045030134323405583291930, -0.2921388087338361933714048358376299, 536870908.0);
    Turn(sin, cos, 27, 0.9563759284045030134323405583291930, -0.2921388087338361933714048358376299, 0.2709057883078690199863430927787925, -0.9626058663135666019754530578993089, 1073741820.0);
    Turn(sin, cos, 28, 0.2709057883078690199863430927787925, -0.9626058663135666019754530578993089, -0.6636338842129675021511733400611052, -0.7480575296890003517651917922551408, 2147483644.0);
    Turn(sin, cos, 29, -0.6636338842129675021511733400611052, -0.7480575296890003517651917922551408, -0.9880316240928617899877489072944582, 0.1542514498875840507186621466142102, 4294967292.0);
    Turn(sin, cos, 30, -0.9880316240928617899877489072944582, 0.1542514498875840507186621466142102, -0.4040376453230650060487708996642372, 0.9147423578045312789624358261503548, 8589934588.0);
    Turn(sin, cos, 31, -0.4040376453230650060487708996642372, 0.9147423578045312789624358261503548, 0.5514266812416905506615581668457128, 0.8342233605065102722155264708702923, 17179869180.0);
  }

  lemma Angles40(sin: nat -> real, cos: nat -> real)
    requires Sine(sin, cos)
    requires Near(sin, cos, 32, 0.5514266812416905506615581668457128, 0.8342233605065102722155264708702923, 34359738364.0)
    ensures Near(sin, cos, 40, 0.7451131604793487869877094026363443, -0.6669380616522618443840927819337000, 8796093022204.0)
    ensures Within(sin(33), 4294588738.0)
    ensures Within(sin(34), 2272392833.0)
    ensures Within(sin(35), 1839030562.0)
    ensures Within(sin(36), 4259657740.0)
    ensures Within(sin(37), 2763975236.0)
    ensures Within(sin(38), 1272893353.0)
    ensures Within(sin(39), 4139469664.0)
    ensures Within(sin(40), 3200236656.0)
  {
    Turn(sin, cos, 32, 0.5514266812416905506615581668457128, 0.8342233605065102722155264708702923, 0.9999118601072671457280843767078283, -0.0132767472230594789152200313710070, 34359738364.0);
    Turn(sin, cos, 33, 0.9999118601072671457280843767078283, -0.0132767472230594789152200313710070, 0.5290826861200238208324871340321048, -0.8485702747846051865999720877123832, 68719476732.0);
    Turn(sin, cos, 34, 0.5290826861200238208324871340321048, -0.8485702747846051865999720877123832, -0.4281826694961510044067528917459407, -0.9036922050915067598473045720837706, 137438953468.0);
    Turn(sin, cos, 35, -0.4281826694961510044067528917459407, -0.9036922050915067598473045720837706, -0.9917788534431157368352889688408158, -0.1279636896274046810283279779143712, 274877906940.0);
    Turn(sin, cos, 36, -0.9917788534431157368352889688408158, -0.1279636896274046810283279779143712, -0.6435381333569994606856700190807955, 0.7654140519453433564910812929025117, 549755813884.0);
    Turn(sin, cos, 37, -0.6435381333569994606856700190807955, 0.7654140519453433564910812929025117, 0.2963685787093853173922966498490173, 0.9550736440472948575865362354058770, 1099511627772.0);
    Turn(sin, cos, 38, 0.2963685787093853173922966498490173, 0.9550736440472948575865362354058770, 0.9637953862840877532606649717658821, 0.2666429323599372515268257949756328, 2199023255548.0);
    Turn(sin, cos, 39, 0.9637953862840877532606649717658821, 0.2666429323599372515268257949756328, 0.7451131604793487869877094026363443, -0.6669380616522618443840927819337000, 4398046511100.0);
  }

  lemma Angles48(sin: nat -> real, cos: nat -> real)
    requires Sine(sin, cos)
    requires Near(sin, cos, 40, 0.7451131604793487869877094026363443, -0.6669380616522618443840927819337000, 8796093022204.0)
    ensures Near(sin, cos, 48, -0.7682546613236667990449656648458935, -0.6401443394691997313129414193930772, 2251799813685244.0)
    ensures Within(sin(41), 681279174.0)
    ensures Within(sin(42), 3936430074.0)
    ensures Within(sin(43), 3572445317.0)
    ensures Within(sin(44), 76029189.0)
    ensures Within(sin(45), 3654602809.0)
    ensures Within(sin(46), 3873151461.0)
    ensures Within(sin(47), 530742520.0)
    ensures Within(sin(48), 3299628645.0)
  {
    Turn(sin, cos, 40, 0.7451131604793487869877094026363443, -0.6669380616522618443840927819337000, -0.1586226688047089871033170119296870, -0.9873392775238264582288251334148276, 8796093022204.0);
    Turn(sin, cos, 41, -0.1586226688047089871033170119296870, -0.9873392775238264582288251334148276, -0.9165215479156337858989891580696715, -0.3999853149883512939547073371772020, 17592186044412.0);
    Turn(sin, cos, 42, -0.9165215479156337858989891580696715, -0.3999853149883512939547073371772020, -0.8317747426285982882095782562917522, 0.5551133015206256770448794419625920, 35184372088828.0);
    Turn(sin, cos, 43, -0.8317747426285982882095782562917522, 0.5551133015206256770448794419625920, 0.0177019251054135778079540531666167, 0.9998433086476912200690090166378560, 70368744177660.0);
    Turn(sin, cos, 44, 0.0177019251054135778079540531666167, 0.9998433086476912200690090166378560, 0.8509035245341184248623796776180411, 0.5253219888177296960474644048235629, 140737488355324.0);
    Turn(sin, cos, 45, 0.8509035245341184248623796776180411, 0.5253219888177296960474644048235629, 0.9017883476488091850332930392227386, -0.4321779448847782949527765241327685, 281474976710652.0);
    Turn(sin, cos, 46, 0.9017883476488091850332930392227386, -0.4321779448847782949527765241327685, 0.1235731227452240040615293480864105, -0.9923354691509287182797524203448622, 562949953421308.0);
    Turn(sin, cos, 47, 0.1235731227452240040615293480864105, -0.9923354691509287182797524203448622, -0.7682546613236667990449656648458935, -0.6401443394691997313129414193930772, 1125899906842620.0);
  }

  lemma Angles56(sin: nat -> real, cos: nat -> real)
    requires Sine(sin, cos)
    requires Near(sin, cos, 48, -0.7682546613236667990449656648458935, -0.6401443394691997313129414193930772, 2251799813685244.0)
    ensures Near(sin, cos, 56, -0.5215510020869118801874100215106005, 0.8532201077225841139696812339149138, 576460752303423484.0)
    ensures Within(sin(49), 4096336452.0)
    ensures Within(sin(50), 1126891415.0)
    ensures Within(sin(51), 2878612391.0)
    ensures Within(sin(52), 4237533241.0)
    ensures Within(sin(53), 1700485571.0)
    ensures Within(sin(54), 2399980690.0)
    ensures Within(sin(55), 4293915773.0)
    ensures Within(sin(56), 2240044497.0)
  {
    Turn(sin, cos, 48, -0.7682546613236667990449656648458935, -0.6401443394691997313129414193930772, -0.9537526527594718183604235585877106, 0.3005925437436370836870260004905614, 2251799813685244.0);
    Turn(sin, cos, 49, -0.9537526527594718183604235585877106, 0.3005925437436370836870260004905614, -0.2623748537039287859143936469126225, 0.9649660284921132740689570589010170, 4503599627370492.0);
    Turn(sin, cos, 50, -0.2623748537039287859143936469126225, 0.9649660284921132740689570589010170, 0.6702291758433747344943450749506668, 0.7421541968137825394673771757369559, 9007199254740988.0);
    Turn(sin, cos, 51, 0.6702291758433747344943450749506668, 0.7421541968137825394673771757369559, 0.9866275920404852965875689344367401, -0.1629907807957054810033298154252117, 18014398509481980.0);
    Turn(sin, cos, 52, 0.9866275920404852965875689344367401, -0.1629907807957054810033298154252117, 0.3959251501818341815033861392635393, -0.9182827862121188911997263232164721, 36028797018963964.0);
    Turn(sin, cos, 53, 0.3959251501818341815033861392635393, -0.9182827862121188911997263232164721, -0.5587890488516162458178713189653938, -0.8293098328631501477278500424881687, 72057594037927932.0);
    Turn(sin, cos, 54, -0.5587890488516162458178713189653938, -0.8293098328631501477278500424881687, -0.9997551733586198365986316832438922, 0.0221267562619557345635642621466265, 144115188075855868.0);
    Turn(sin, cos, 55, -0.9997551733586198365986316832438922, 0.0221267562619557345635642621466265, -0.5215510020869118801874100215106005, 0.8532201077225841139696812339149138, 288230376151711740.0);
  }

  lemma Angles64(sin: nat -> real, cos: nat -> real)
    requires Sine(sin, cos)
    requires Near(sin, cos, 56, -0.5215510020869118801874100215106005, 0.8532201077225841139696812339149138, 576460752303423484.0)
    ensures Near(sin, cos, 64, 0.9200260381967906833515366037772519, 0.3918572304295500051617098585131229, 147573952589676412924.0)
    ensures Within(sin(57), 1873313359.0)
    ensures Within(sin(58), 4264355552.0)
    ensures Within(sin(59), 2734768916.0)
    ensures Within(sin(60), 1309151649.0)
    ensures Within(sin(61), 4149444226.0)
    ensures Within(sin(62), 3174756917.0)
    ensures Within(sin(63), 718787259.0)
    ensures Within(sin(64), 3951481745.0)
  {
    Turn(sin, cos, 56, -0.5215510020869118801874100215106005, 0.8532201077225841139696812339149138, 0.4361647552478249590805347931292435, 0.8998668269691937865030004046578351, 576460752303423484.0);
    Turn(sin, cos, 57, 0.4361647552478249590805347931292435, 0.8998668269691937865030004046578351, 0.9928726480845371181650881644253998, 0.1191801354488192854358436107669639, 1152921504606846972.0);
    Turn(sin, cos, 58, 0.9928726480845371181650881644253998, 0.1191801354488192854358436107669639, 0.6367380071391378807712334923768294, -0.7710802229758452293874352963762892, 2305843009213693948.0);
    Turn(sin, cos, 59, 0.6367380071391378807712334923768294, -0.7710802229758452293874352963762892, -0.3048106211022167056256494654784258, -0.9524129804151562926938165959929333, 4611686018427387900.0);
    Turn(sin, cos, 60, -0.3048106211022167056256494654784258, -0.9524129804151562926938165959929333, -0.9661177700083929470182879894805182, -0.2581016359382674457012073471527540, 9223372036854775804.0);
    Turn(sin, cos, 61, -0.9661177700083929470182879894805182, -0.2581016359382674457012073471527540, -0.7391806966492228672760169337554366, 0.6735071623235862528878334059539365, 18446744073709551612.0);
    Turn(sin, cos, 62, -0.7391806966492228672760169337554366, 0.6735071623235862528878334059539365, 0.1673557003028069215278383702887180, 0.9858965815825496974386357560539772, 36893488147419103228.0);
    Turn(sin, cos, 63, 0.1673557003028069215278383702887180, 0.9858965815825496974386357560539772, 0.9200260381967906833515366037772519, 0.3918572304295500051617098585131229, 73786976294838206460.0);
  }

  lemma Constants8()
    ensures Constant(0, 3614090360)
    ensures Constant(1, 3905402710)
    ensures Constant(2, 606105819)
    ensures Constant(3, 3250441966)
    ensures Constant(4, 4118548399)
    ensures Constant(5, 1200080426)
    ensures Constant(6, 2821735955)
    ensures Constant(7, 4249261313)
  {
    assert T(0) == 0xd76aa478;
    assert T(1) == 0xe8c7b756;
    assert T(2) == 0x242070db;
    assert T(3) == 0xc1bdceee;
    assert T(4) == 0xf57c0faf;
    assert T(5) == 0x4787c62a;
    assert T(6) == 0xa8304613;
    assert T(7) == 0xfd469501;
  }

  lemma Constants16()
    ensures Constant(8, 1770035416)
    ensures Constant(9, 2336552879)
    ensures Constant(10, 4294925233)
    ensures Constant(11, 2304563134)
    ensures Constant(12, 1804603682)
    ensures Constant(13, 4254626195)
    ensures Constant(14, 2792965006)
    ensures Constant(15, 1236535329)
  {
    assert T(8) == 0x698098d8;
    assert T(9) == 0x8b44f7af;
    assert T(10) == 0xffff5bb1;
    assert T(11) == 0x895cd7be;
    assert T(12) == 0x6b901122;
    assert T(13) == 0xfd987193;
    assert T(14) == 0xa679438e;
    assert T(15) == 0x49b40821;
  }

  lemma Constants24()
    ensures Constant(16, 4129170786)
    ensures Constant(17, 3225465664)
    ensures Constant(18, 643717713)
    ensures Constant(19, 3921069994)
    ensures Constant(20, 3593408605)
    ensures Constant(21, 38016083)
    ensures Constant(22, 3634488961)
    ensures Constant(23, 3889429448)
  {
    assert T(16) == 0xf61e2562;
    assert T(17) == 0xc040b340;
    assert T(18) == 0x265e5a51;
    assert T(19) == 0xe9b6c7aa;
    assert T(20) == 0xd62f105d;
    assert T(21) == 0x02441453;
    assert T(22) == 0xd8a1e681;
    assert T(23) == 0xe7d3fbc8;
  }

  lemma Constants32()
    ensures Constant(24, 568446438)
    ensures Constant(25, 3275163606)
    ensures Constant(26, 4107603335)
    ensures Constant(27, 1163531501)
    ensures Constant(28, 2850285829)
    ensures Constant(29, 4243563512)
    ensures Constant(30, 1735328473)
    ensures Constant(31, 2368359562)
  {
    assert T(24) == 0x21e1cde6;
    assert T(25) == 0xc33707d6;
    assert T(26) == 0xf4d50d87;
    assert T(27) == 0x455a14ed;
    assert T(28) == 0xa9e3e905;
    assert T(29) == 0xfcefa3f8;
    assert T(30) == 0x676f02d9;
    assert T(31) == 0x8d2a4c8a;
  }

  lemma Constants40()
    ensures Constant(32, 4294588738)
    ensures Constant(33, 2272392833)
    ensures Constant(34, 1839030562)
    ensures Constant(35, 4259657740)
    ensures Constant(36, 2763975236)
    ensures Constant(37, 1272893353)
    ensures Constant(38, 4139469664)
    ensures Constant(39, 3200236656)
  {
    assert T(32) == 0xfffa3942;
    assert T(33) == 0x8771f681;
    assert T(34) == 0x6d9d6122;
    assert T(35) == 0xfde5380c;
    assert T(36) == 0xa4beea44;
    assert T(37) == 0x4bdecfa9;
    assert T(38) == 0xf6bb4b60;
    assert T(39) == 0xbebfbc70;
  }

  lemma Constants48()
    ensures Constant(40, 681279174)
    ensures Constant(41, 3936430074)
    ensures Constant(42, 3572445317)
    ensures Constant(43, 76029189)
    ensures Constant(44, 3654602809)
    ensures Constant(45, 3873151461)
    ensures Constant(46, 530742520)
    ensures Constant(47, 3299628645)
  {
    assert T(40) == 0x289b7ec6;
    assert T(41) == 0xeaa127fa;
    assert T(42) == 0xd4ef3085;
    assert T(43) == 0x04881d05;
    assert T(44) == 0xd9d4d039;
    assert T(45) == 0xe6db99e5;
    assert T(46) == 0x1fa27cf8;
    assert T(47) == 0xc4ac5665;
  }

  lemma Constants56()
    ensures Constant(48, 4096336452)
    ensures Constant(49, 1126891415)
    ensures Constant(50, 2878612391)
    ensures Constant(51, 4237533241)
    ensures Constant(52, 1700485571)
    ensures Constant(53, 2399980690)
    ensures Constant(54, 4293915773)
    ensures Constant(55, 2240044497)
  {
    assert T(48) == 0xf4292244;
    assert T(49) == 0x432aff97;
    assert T(50) == 0xab9423a7;
    assert T(51) == 0xfc93a039;
    assert T(52) == 0x655b59c3;
    assert T(53) == 0x8f0ccc92;
    assert T(54) == 0xffeff47d;
    assert T(55) == 0x85845dd1;
  }

  lemma Constants64()
    ensures Constant(56, 1873313359)
    ensures Constant(57, 4264355552)
    ensures Constant(58, 2734768916)
    ensures Constant(59, 1309151649)
    ensures Constant(60, 4149444226)
    ensures Constant(61, 3174756917)
    ensures Constant(62, 718787259)
    ensures Constant(63, 3951481745)
  {
    assert T(56) == 0x6fa87e4f;
    assert T(57) == 0xfe2ce6e0;
    assert T(58) == 0xa3014314;
    assert T(59) == 0x4e0811a1;
    assert T(60) == 0xf7537e82;
    assert T(61) == 0xbd3af235;
    assert T(62) == 0x2ad7d2bb;
    assert T(63) == 0xeb86d391;
  }

  /** Entry `i` of the table as a number; said of every number equal to `i`, so that a proof uses the fact
      without looking the entry up again. */
  ghost predicate Constant(i: nat, t: int) {
    i < 64 && forall m: nat :: m == i ==> T(m) as int == t
  }

  lemma EntryAt(sin: nat -> real, i: nat, t: int)
    requires Constant(i, t) && Within(sin(i + 1), t as real)
    ensures Within(sin(i + 1), (T(i) as int) as real)
  {
    assert T(i) as int == t;
  }

  lemma Table8(sin: nat -> real, i: nat)
    requires 0 <= i < 8
    requires Within(sin(1), 3614090360.0)
    requires Within(sin(2), 3905402710.0)
    requires Within(sin(3), 606105819.0)
    requires Within(sin(4), 3250441966.0)
    requires Within(sin(5), 4118548399.0)
    requires Within(sin(6), 1200080426.0)
    requires Within(sin(7), 2821735955.0)
    requires Within(sin(8), 4249261313.0)
    ensures Within(sin(i + 1), (T(i) as int) as real)
  {
    Constants8();
    if i == 0 {
      EntryAt(sin, i, 3614090360);
    } else if i == 1 {
      EntryAt(sin, i, 3905402710);
    } else if i == 2 {
      EntryAt(sin, i, 606105819);
    } else if i == 3 {
      EntryAt(sin, i, 3250441966);
    } else if i == 4 {
      EntryAt(sin, i, 4118548399);
    } else if i == 5 {
      EntryAt(sin, i, 1200080426);
    } else if i == 6 {
      EntryAt(sin, i, 2821735955);
    } else {
      EntryAt(sin, i, 4249261313);
    }
  }

  lemma Table16(sin: nat -> real, i: nat)
    requires 8 <= i < 16
    requires Within(sin(9), 1770035416.0)
    requires Within(sin(10), 2336552879.0)
    requires Within(sin(11), 4294925233.0)
    requires Within(sin(12), 2304563134.0)
    requires Within(sin(13), 1804603682.0)
    requires Within(sin(14), 4254626195.0)
    requires Within(sin(15), 2792965006.0)
    requires Within(sin(16), 1236535329.0)
    ensures Within(sin(i + 1), (T(i) as int) as real)
  {
    Constants16();
    if i == 8 {
      EntryAt(sin, i, 1770035416);
    } else if i == 9 {
      EntryAt(sin, i, 2336552879);
    } else if i == 10 {
      EntryAt(sin, i, 4294925233);
    } else if i == 11 {
      EntryAt(sin, i, 2304563134);
    } else if i == 12 {
      EntryAt(sin, i, 1804603682);
    } else if i == 13 {
      EntryAt(sin, i, 4254626195);
    } else if i == 14 {
      EntryAt(sin, i, 2792965006);
    } else {
      EntryAt(sin, i, 1236535329);
    }
  }

  lemma Table24(sin: nat -> real, i: nat)
    requires 16 <= i < 24
    requires Within(sin(17), 4129170786.0)
    requires Within(sin(18), 3225465664.0)
    requires Within(sin(19), 643717713.0)
    requires Within(sin(20), 3921069994.0)
    requires Within(sin(21), 3593408605.0)
    requires Within(sin(22), 38016083.0)
    requires Within(sin(23), 3634488961.0)
    requires Within(sin(24), 3889429448.0)
    ensures Within(sin(i + 1), (T(i) as int) as real)
  {
    Constants24();
    if i == 16 {
      EntryAt(sin, i, 4129170786);
    } else if i == 17 {
      EntryAt(sin, i, 3225465664);
    } else if i == 18 {
      EntryAt(sin, i, 643717713);
    } else if i == 19 {
      EntryAt(sin, i, 3921069994);
    } else if i == 20 {
      EntryAt(sin, i, 3593408605);
    } else if i == 21 {
      EntryAt(sin, i, 38016083);
    } else if i == 22 {
      EntryAt(sin, i, 3634488961);
    } else {
      EntryAt(sin, i, 3889429448);
    }
  }

  lemma Table32(sin: nat -> real, i: nat)
    requires 24 <= i < 32
    requires Within(sin(25), 568446438.0)
    requires Within(sin(26), 3275163606.0)
    requires Within(sin(27), 4107603335.0)
    requires Within(sin(28), 1163531501.0)
    requires Within(sin(29), 2850285829.0)
    requires Within(sin(30), 4243563512.0)
    requires Within(sin(31), 1735328473.0)
    requires Within(sin(32), 2368359562.0)
    ensures Within(sin(i + 1), (T(i) as int) as real)
  {
    Constants32();
    if i == 24 {
      EntryAt(sin, i, 568446438);
    } else if i == 25 {
      EntryAt(sin, i, 3275163606);
    } else if i == 26 {
      EntryAt(sin, i, 4107603335);
    } else if i == 27 {
      EntryAt(sin, i, 1163531501);
    } else if i == 28 {
      EntryAt(sin, i, 2850285829);
    } else if i == 29 {
      EntryAt(sin, i, 4243563512);
    } else if i == 30 {
      EntryAt(sin, i, 1735328473);
    } else {
      EntryAt(sin, i, 2368359562);
    }
  }

  lemma Table40(sin: nat -> real, i: nat)
    requires 32 <= i < 40
    requires Within(sin(33), 4294588738.0)
    requires Within(sin(34), 2272392833.0)
    requires Within(sin(35), 1839030562.0)
    requires Within(sin(36), 4259657740.0)
    requires Within(sin(37), 2763975236.0)
    requires Within(sin(38), 1272893353.0)
    requires Within(sin(39), 4139469664.0)
    requires Within(sin(40), 3200236656.0)
    ensures Within(sin(i + 1), (T(i) as int) as real)
  {
    Constants40();
    if i == 32 {
      EntryAt(sin, i, 4294588738);
    } else if i == 33 {
      EntryAt(sin, i, 2272392833);
    } else if i == 34 {
      EntryAt(sin, i, 1839030562);
    } else if i == 35 {
      EntryAt(sin, i, 4259657740);
    } else if i == 36 {
      EntryAt(sin, i, 2763975236);
    } else if i == 37 {
      EntryAt(sin, i, 1272893353);
    } else if i == 38 {
      EntryAt(sin, i, 4139469664);
    } else {
      EntryAt(sin, i, 3200236656);
    }
  }

  lemma Table48(sin: nat -> real, i: nat)
    requires 40 <= i < 48
    requires Within(sin(41), 681279174.0)
    requires Within(sin(42), 3936430074.0)
    requires Within(sin(43), 3572445317.0)
    requires Within(sin(44), 76029189.0)
    requires Within(sin(45), 3654602809.0)
    requires Within(sin(46), 3873151461.0)
    requires Within(sin(47), 530742520.0)
    requires Within(sin(48), 3299628645.0)
    ensures Within(sin(i + 1), (T(i) as int) as real)
  {
    Constants48();
    if i == 40 {
      EntryAt(sin, i, 681279174);
    } else if i == 41 {
      EntryAt(sin, i, 3936430074);
    } else if i == 42 {
      EntryAt(sin, i, 3572445317);
    } else if i == 43 {
      EntryAt(sin, i, 76029189);
    } else if i == 44 {
      EntryAt(sin, i, 3654602809);
    } else if i == 45 {
      EntryAt(sin, i, 3873151461);
    } else if i == 46 {
      EntryAt(sin, i, 530742520);
    } else {
      EntryAt(sin, i, 3299628645);
    }
  }

  lemma Table56(sin: nat -> real, i: nat)
    requires 48 <= i < 56
    requires Within(sin(49), 4096336452.0)
    requires Within(sin(50), 1126891415.0)
    requires Within(sin(51), 2878612391.0)
    requires Within(sin(52), 4237533241.0)
    requires Within(sin(53), 1700485571.0)
    requires Within(sin(54), 2399980690.0)
    requires Within(sin(55), 4293915773.0)
    requires Within(sin(56), 2240044497.0)
    ensures Within(sin(i + 1), (T(i) as int) as real)
  {
    Constants56();
    if i == 48 {
      EntryAt(sin, i, 4096336452);
    } else if i == 49 {
      EntryAt(sin, i, 1126891415);
    } else if i == 50 {
      EntryAt(sin, i, 2878612391);
    } else if i == 51 {
      EntryAt(sin, i, 4237533241);
    } else if i == 52 {
      EntryAt(sin, i, 1700485571);
    } else if i == 53 {
      EntryAt(sin, i, 2399980690);
    } else if i == 54 {
      EntryAt(sin, i, 4293915773);
    } else {
      EntryAt(sin, i, 2240044497);
    }
  }

  lemma Table64(sin: nat -> real, i: nat)
    requires 56 <= i < 64
    requires Within(sin(57), 1873313359.0)
    requires Within(sin(58), 4264355552.0)
    requires Within(sin(59), 2734768916.0)
    requires Within(sin(60), 1309151649.0)
    requires Within(sin(61), 4149444226.0)
    requires Within(sin(62), 3174756917.0)
    requires Within(sin(63), 718787259.0)
    requires Within(sin(64), 3951481745.0)
    ensures Within(sin(i + 1), (T(i) as int) as real)
  {
    Constants64();
    if i == 56 {
      EntryAt(sin, i, 1873313359);
    } else if i == 57 {
      EntryAt(sin, i, 4264355552);
    } else if i == 58 {
      EntryAt(sin, i, 2734768916);
    } else if i == 59 {
      EntryAt(sin, i, 1309151649);
    } else if i == 60 {
      EntryAt(sin, i, 4149444226);
    } else if i == 61 {
      EntryAt(sin, i, 3174756917);
    } else if i == 62 {
      EntryAt(sin, i, 718787259);
    } else {
      EntryAt(sin, i, 3951481745);
    }
  }

  /** Every constant is the integer part of 4294967296 * |sin(i + 1)|, for whatever satisfies the addition
      theorems and the power series. */
  lemma TableIsSine(sin: nat -> real, cos: nat -> real, i: nat)
    requires Sine(sin, cos) && i < 64
    ensures Within(sin(i + 1), (T(i) as int) as real)
  {
    Origin(sin, cos);
    Angles8(sin, cos);
    Angles16(sin, cos);
    Angles24(sin, cos);
    Angles32(sin, cos);
    Angles40(sin, cos);
    Angles48(sin, cos);
    Angles56(sin, cos);
    Angles64(sin, cos);
    if i < 8 {
      Table8(sin, i);
    } else if i < 16 {
      Table16(sin, i);
    } else if i < 24 {
      Table24(sin, i);
    } else if i < 32 {
      Table32(sin, i);
    } else if i < 40 {
      Table40(sin, i);
    } else if i < 48 {
      Table48(sin, i);
    } else if i < 56 {
      Table56(sin, i);
    } else {
      Table64(sin, i);
    }
  }
}
