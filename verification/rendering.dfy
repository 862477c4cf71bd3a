/** `getCoordinates(precision)`: the text rendering of a point. Each class
    writes its own string; the model proves every one of them equal to a
    single layout rule over the family's field symbols. */
module Rendering {
  import opened Families
  import opened Coordinates

  /** `doubleToString(value, precision)`, a wrapper over `String.format`;
      left abstract. */
  type Formatter = (real, nat) -> string

  /** The layout rule for one field: its symbol, `": "`, the formatted
      value, `rad` after an angle, then `";\n"`, or `"."` on the last line. */
  function Line(sym: char, v: real, precision: nat, fmt: Formatter, last: bool): string {
    [sym] + ": " + fmt(v, precision)
    + (if IsAngle(sym) then "rad" else "")
    + (if last then "." else ";\n")
  }

  /** The layout rule for a whole point: one `Line` per field, in order. */
  function Layout(syms: seq<char>, vs: seq<real>, precision: nat, fmt: Formatter): string
    requires |syms| == |vs|
    decreases |syms|
  {
    if |syms| == 0 then ""
    else Line(syms[0], vs[0], precision, fmt, |syms| == 1) + Layout(syms[1..], vs[1..], precision, fmt)
  }

  // ---------------------------------------------------------------------
  // The five `getCoordinates` bodies, written as the classes write them.
  // The assertion in each is `Layout` unfolded once per field, ending in
  // the empty layout `""` of the base case.
  // ---------------------------------------------------------------------

  function Decart2dText(x: real, y: real, precision: nat, fmt: Formatter): (s: string)
    ensures s == Layout(Fields(Decart2dFamily), [x, y], precision, fmt)
  {
    var s := "x: " + fmt(x, precision) + ";\n"
           + "y: " + fmt(y, precision) + ".";
    assert s == Line('x', x, precision, fmt, false)
              + (Line('y', y, precision, fmt, true) + "");
    s
  }

  function PolarText(rho: real, phi: real, precision: nat, fmt: Formatter): (s: string)
    ensures s == Layout(Fields(PolarFamily), [rho, phi], precision, fmt)
  {
    var s := "ρ: " + fmt(rho, precision) + ";\n"
           + "φ: " + fmt(phi, precision) + "rad.";
    assert s == Line('ρ', rho, precision, fmt, false)
              + (Line('φ', phi, precision, fmt, true) + "");
    s
  }

  function Decart3dText(x: real, y: real, z: real, precision: nat, fmt: Formatter): (s: string)
    ensures s == Layout(Fields(Decart3dFamily), [x, y, z], precision, fmt)
  {
    var s := "x: " + fmt(x, precision) + ";\n"
           + "y: " + fmt(y, precision) + ";\n"
           + "z: " + fmt(z, precision) + ".";
    assert s == Line('x', x, precision, fmt, false)
              + (Line('y', y, precision, fmt, false)
                 + (Line('z', z, precision, fmt, true) + ""));
    s
  }

  function CylindricalText(rho: real, phi: real, z: real, precision: nat, fmt: Formatter): (s: string)
    ensures s == Layout(Fields(CylindricalFamily), [rho, phi, z], precision, fmt)
  {
    var s := "ρ: " + fmt(rho, precision) + ";\n"
           + "φ: " + fmt(phi, precision) + "rad;\n"
           + "z: " + fmt(z, precision) + ".";
    assert s == Line('ρ', rho, precision, fmt, false)
              + (Line('φ', phi, precision, fmt, false)
                 + (Line('z', z, precision, fmt, true) + ""));
    s
  }

  function SphericalText(r: real, theta: real, phi: real, precision: nat, fmt: Formatter): (s: string)
    ensures s == Layout(Fields(SphericalFamily), [r, theta, phi], precision, fmt)
  {
    var s := "r: " + fmt(r, precision) + ";\n"
           + "θ: " + fmt(theta, precision) + "rad;\n"
           + "φ: " + fmt(phi, precision) + "rad.";
    assert s == Line('r', r, precision, fmt, false)
              + (Line('θ', theta, precision, fmt, false)
                 + (Line('φ', phi, precision, fmt, true) + ""));
    s
  }

  /** The interface call `c.getCoordinates(precision)`. */
  function Render(c: Coord, precision: nat, fmt: Formatter): (s: string)
    ensures s == Layout(Fields(FamilyOf(c)), Values(c), precision, fmt)
  {
    match c
    case Decart2d(x, y) => Decart2dText(x, y, precision, fmt)
    case Polar(rho, phi) => PolarText(rho, phi, precision, fmt)
    case Decart3d(x, y, z) => Decart3dText(x, y, z, precision, fmt)
    case Cylindrical(rho, phi, z) => CylindricalText(rho, phi, z, precision, fmt)
    case Spherical(r, theta, phi) => SphericalText(r, theta, phi, precision, fmt)
  }

  // ---------------------------------------------------------------------
  // Shape of the layout: one line per field, ending in '.'.
  // ---------------------------------------------------------------------

  function CountNewlines(s: string): nat {
    if |s| == 0 then 0
    else (if s[0] == '\n' then 1 else 0) + CountNewlines(s[1..])
  }

  lemma {:induction false} CountNewlinesAppend(a: string, b: string)
    ensures CountNewlines(a + b) == CountNewlines(a) + CountNewlines(b)
  {
    if |a| == 0 {
      assert a + b == b;
    } else {
      assert (a + b)[1..] == a[1..] + b;
      CountNewlinesAppend(a[1..], b);
    }
  }

  /** A line holds a newline only as its `;\n` terminator. */
  lemma LineNewlines(sym: char, v: real, precision: nat, fmt: Formatter, last: bool)
    requires sym != '\n' && '\n' !in fmt(v, precision)
    ensures CountNewlines(Line(sym, v, precision, fmt, last)) == if last then 0 else 1
  {
    var head := [sym] + ": ";
    var val := fmt(v, precision);
    var unit: string := if IsAngle(sym) then "rad" else "";
    var term: string := if last then "." else ";\n";
    assert Line(sym, v, precision, fmt, last) == head + val + unit + term;
    CountNewlinesAppend(head + val + unit, term);
    CountNewlinesAppend(head + val, unit);
    CountNewlinesAppend(head, val);
    NoNewlineCountsZero(head);
    NoNewlineCountsZero(val);
    NoNewlineCountsZero(unit);
    if !last {
      assert term == [';'] + "\n";
      CountNewlinesAppend([';'], "\n");
    }
  }

  lemma {:induction false} NoNewlineCountsZero(s: string)
    requires '\n' !in s
    ensures CountNewlines(s) == 0
  {
    if |s| > 0 {
      assert s[0] != '\n';
      assert forall k :: 0 <= k < |s[1..]| ==> s[1..][k] == s[k + 1];
      NoNewlineCountsZero(s[1..]);
    }
  }

  /** Laying out n fields produces exactly n - 1 line breaks, so n lines,
      provided neither a symbol nor a formatted value holds a line break. */
  lemma {:induction false} LayoutNewlines(syms: seq<char>, vs: seq<real>, precision: nat, fmt: Formatter)
    requires |syms| == |vs| > 0
    requires '\n' !in syms
    requires forall i :: 0 <= i < |vs| ==> '\n' !in fmt(vs[i], precision)
    ensures CountNewlines(Layout(syms, vs, precision, fmt)) == |syms| - 1
  {
    LineNewlines(syms[0], vs[0], precision, fmt, |syms| == 1);
    var rest := Layout(syms[1..], vs[1..], precision, fmt);
    CountNewlinesAppend(Line(syms[0], vs[0], precision, fmt, |syms| == 1), rest);
    if |syms| > 1 {
      assert forall i :: 0 <= i < |vs[1..]| ==> vs[1..][i] == vs[i + 1];
      LayoutNewlines(syms[1..], vs[1..], precision, fmt);
    }
  }

  /** A non-empty layout is terminated by '.'. */
  lemma {:induction false} LayoutEndsWithPeriod(syms: seq<char>, vs: seq<real>, precision: nat, fmt: Formatter)
    requires |syms| == |vs| > 0
    ensures var s := Layout(syms, vs, precision, fmt); |s| > 0 && s[|s| - 1] == '.'
  {
    var line := Line(syms[0], vs[0], precision, fmt, |syms| == 1);
    var rest := Layout(syms[1..], vs[1..], precision, fmt);
    if |syms| == 1 {
      assert rest == "";
    } else {
      LayoutEndsWithPeriod(syms[1..], vs[1..], precision, fmt);
      assert (line + rest)[|line + rest| - 1] == rest[|rest| - 1];
    }
  }

  /** The rendered text of any point: exactly one line per field of its
      family (2 for the plane families, 3 for the space families), opening
      with the first field's label and closing with '.'. */
  lemma RenderShape(c: Coord, precision: nat, fmt: Formatter)
    requires forall i :: 0 <= i < |Values(c)| ==> '\n' !in fmt(Values(c)[i], precision)
    ensures var s := Render(c, precision, fmt);
      && CountNewlines(s) + 1 == |Fields(FamilyOf(c))|
      && CountNewlines(s) + 1 == (if Planar(FamilyOf(c)) then 2 else 3)
      && |s| > 3 && s[|s| - 1] == '.'
      && s[..3] == [Fields(FamilyOf(c))[0]] + ": "
  {
    var syms := Fields(FamilyOf(c));
    LayoutNewlines(syms, Values(c), precision, fmt);
    LayoutEndsWithPeriod(syms, Values(c), precision, fmt);
    var first := Line(syms[0], Values(c)[0], precision, fmt, false);
    assert Render(c, precision, fmt)
      == first + Layout(syms[1..], Values(c)[1..], precision, fmt);
    assert first[..3] == [syms[0]] + ": ";
  }

  /** Decart2d(3, 4) converted to polar and rendered at precision 2, given
      a formatter that prints the computed radius as "5.00" and the angle
      as "0.93". */
  lemma PolarRenderingExample(m: Math, fmt: Formatter)
    requires fmt(m.sqrt(25.0), 2) == "5.00"
    requires fmt(m.atan2(4.0, 3.0), 2) == "0.93"
    ensures var conv := Convert(Decart2d(3.0, 4.0), PolarFamily, m);
      && !conv.retry
      && Render(conv.value, 2, fmt) == "ρ: 5.00;\nφ: 0.93rad."
  {
  }
}
