/**
 * The dialogue-bubble picture (src/bubble.ts): sprite keying and scaling, the
 * greedy character wrapper, the two-sided favorability bar and the layout of
 * one 800x600 picture. Drawing itself is not modelled: the model computes the
 * rectangles, colours and texts the source hands to the canvas.
 */
module Bubble {
  import opened Common
  import opened Data

  // ---------------------------------------------------------------------------
  // Near-white keying of an RGBA buffer

  newtype Byte = x: int | 0 <= x < 256

  const KeyThreshold := 245

  /** The pixel starting at byte `i` has R, G and B all above the threshold. */
  predicate NearWhite(s: seq<Byte>, i: int)
    requires 0 <= i && i + 2 < |s|
  {
    s[i] as int > KeyThreshold && s[i + 1] as int > KeyThreshold && s[i + 2] as int > KeyThreshold
  }

  /** The byte at `k` after keying: the alpha byte of a near-white pixel becomes 0. */
  function KeyedAt(s: seq<Byte>, k: int): Byte
    requires 0 <= k < |s|
  {
    if k % 4 == 3 && NearWhite(s, k - 3) then 0 else s[k]
  }

  /** The buffer the keying loop leaves behind. */
  function Keyed(s: seq<Byte>): (r: seq<Byte>)
    ensures |r| == |s|
    ensures forall k :: 0 <= k < |s| && k % 4 != 3 ==> r[k] == s[k]
    ensures forall k :: 0 <= k < |s| && k % 4 == 3 && NearWhite(s, k - 3) ==> r[k] == 0
    ensures forall k :: 0 <= k < |s| && k % 4 == 3 && !NearWhite(s, k - 3) ==> r[k] == s[k]
  {
    seq(|s|, k requires 0 <= k < |s| => KeyedAt(s, k))
  }

  lemma ColourIndices(k: int)
    requires 0 <= k && k % 4 == 3
    ensures (k - 3) % 4 != 3 && (k - 2) % 4 != 3 && (k - 1) % 4 != 3
  {
    assert k == 4 * (k / 4) + 3;
  }

  /** Keying changes alpha bytes only, so it leaves every pixel's colour as it was. */
  lemma KeyedKeepsColour(s: seq<Byte>, k: int)
    requires 0 <= k < |s| && k % 4 == 3
    ensures NearWhite(Keyed(s), k - 3) == NearWhite(s, k - 3)
  {
    var r := Keyed(s);
    ColourIndices(k);
    assert r[k - 3] == s[k - 3];
    assert r[k - 2] == s[k - 2];
    assert r[k - 1] == s[k - 1];
  }

  /** Keying an already keyed buffer changes nothing. */
  lemma KeyedIdempotent(s: seq<Byte>)
    ensures Keyed(Keyed(s)) == Keyed(s)
  {
    var once := Keyed(s);
    var twice := Keyed(once);
    forall k | 0 <= k < |s|
      ensures twice[k] == once[k]
    {
      if k % 4 == 3 {
        KeyedKeepsColour(s, k);
      }
    }
  }

  /**
   * The loop of `processImageWithTransparentBackground` over `imgData.data`.
   * A trailing partial pixel reads `undefined` past the end, which is never
   * above the threshold, and a write past the end is ignored.
   */
  method KeyNearWhite(data: array<Byte>)
    modifies data
    ensures data[..] == Keyed(old(data[..]))
  {
    ghost var orig := data[..];
    var i := 0;
    while i < data.Length
      invariant 0 <= i <= data.Length + 3 && i % 4 == 0
      invariant forall k :: 0 <= k < data.Length && k < i ==> data[k] == KeyedAt(orig, k)
      invariant forall k :: i <= k < data.Length ==> data[k] == orig[k]
    {
      if i + 2 < data.Length && data[i] as int > KeyThreshold && data[i + 1] as int > KeyThreshold
         && data[i + 2] as int > KeyThreshold {
        if i + 3 < data.Length {
          data[i + 3] := 0;
        }
      }
      i := i + 4;
    }
    assert data[..] == Keyed(orig);
  }

  // ---------------------------------------------------------------------------
  // Sprite scaling

  datatype Size = Size(w: real, h: real)

  function RealMin(a: real, b: real): real { if a <= b then a else b }

  /**
   * `scale = Math.min(maxW / srcW, maxH / srcH)` and the size `{ w, h }` it gives;
   * a zero-width image is `null`. A zero height makes `maxH / 0` infinite, so
   * the width bound decides.
   */
  function ScaledSize(srcW: nat, srcH: nat, maxW: real, maxH: real): (r: Option<Size>)
    requires 0.0 < maxW && 0.0 < maxH
    ensures r.None? <==> srcW == 0
    ensures r.Some? ==> 0.0 <= r.value.w <= maxW && 0.0 <= r.value.h <= maxH
    ensures r.Some? ==> r.value.w * srcH as real == r.value.h * srcW as real
    ensures r.Some? ==> r.value.w == maxW || r.value.h == maxH
  {
    if srcW == 0 then None
    else
      var sw, sh := srcW as real, srcH as real;
      var scale := if srcH == 0 then maxW / sw else RealMin(maxW / sw, maxH / sh);
      assert sw * (maxW / sw) == maxW;
      assert srcH != 0 ==> sh * (maxH / sh) == maxH;
      assert scale * sw <= maxW;
      assert scale * sh <= maxH;
      Some(Size(sw * scale, sh * scale))
  }

  // ---------------------------------------------------------------------------
  // Greedy character wrapping

  function Concat<T>(lines: seq<seq<T>>): seq<T>
    decreases |lines|
  {
    if lines == [] then [] else lines[0] + Concat(lines[1..])
  }

  /**
   * The lines `wrapText` emits from the state (`line`, the characters still to
   * come): a character goes onto the current line unless the line is non-empty
   * and would then measure wider than `maxW`.
   */
  function WrapFrom<T(==)>(width: seq<T> -> real, maxW: real, line: seq<T>, rest: seq<T>): (lines: seq<seq<T>>)
    ensures |lines| >= 1
    ensures |line| <= |lines[0]| && lines[0][..|line|] == line
    decreases |rest|
  {
    if rest == [] then [line]
    else
      var c := rest[0];
      if width(line + [c]) > maxW && line != [] then
        [line] + WrapFrom(width, maxW, [c], rest[1..])
      else
        var lines := WrapFrom(width, maxW, line + [c], rest[1..]);
        assert (line + [c])[..|line|] == line;
        lines
  }

  /** The emitted lines join back to the input, and only an empty input gives an empty line. */
  lemma {:induction false} WrapFromPartitions<T>(width: seq<T> -> real, maxW: real, line: seq<T>, rest: seq<T>)
    ensures Concat(WrapFrom(width, maxW, line, rest)) == line + rest
    ensures forall i :: 0 <= i < |WrapFrom(width, maxW, line, rest)| - 1 ==> WrapFrom(width, maxW, line, rest)[i] != []
    ensures line + rest != [] ==> WrapFrom(width, maxW, line, rest)[|WrapFrom(width, maxW, line, rest)| - 1] != []
    decreases |rest|
  {
    var lines := WrapFrom(width, maxW, line, rest);
    if rest == [] {
      assert Concat(lines) == line + Concat(lines[1..]);
    } else {
      var c := rest[0];
      WrapFromStep(width, maxW, line, rest);
      assert rest == [c] + rest[1..];
      if width(line + [c]) > maxW && line != [] {
        var tail := WrapFrom(width, maxW, [c], rest[1..]);
        WrapFromPartitions(width, maxW, [c], rest[1..]);
        assert lines[1..] == tail;
        assert Concat(lines) == line + Concat(tail);
        forall i | 0 <= i < |lines| - 1
          ensures lines[i] != []
        {
          if i > 0 {
            assert lines[i] == tail[i - 1];
          }
        }
      } else {
        WrapFromPartitions(width, maxW, line + [c], rest[1..]);
        assert (line + [c]) + rest[1..] == line + rest;
      }
    }
  }

  /** The lines `wrapText` emits for `text`, split into UTF-16 code units or any other units. */
  function Wrap<T(==)>(width: seq<T> -> real, text: seq<T>, maxW: real): seq<seq<T>> {
    WrapFrom(width, maxW, [], text)
  }

  /** Joining the emitted lines gives back the input, and no line is empty unless the input is. */
  lemma WrapPartitions<T>(width: seq<T> -> real, text: seq<T>, maxW: real)
    ensures Concat(Wrap(width, text, maxW)) == text
    ensures |Wrap(width, text, maxW)| >= 1
    ensures text != [] ==> forall i :: 0 <= i < |Wrap(width, text, maxW)| ==> Wrap(width, text, maxW)[i] != []
  {
    WrapFromPartitions(width, maxW, [], text);
  }

  /** Every line of two or more units fits the width budget. */
  ghost predicate LinesFit<T>(width: seq<T> -> real, maxW: real, lines: seq<seq<T>>) {
    forall i :: 0 <= i < |lines| && |lines[i]| >= 2 ==> width(lines[i]) <= maxW
  }

  /** Each line but the first is non-empty and would overflow the line before it. */
  ghost predicate BreaksGreedy<T>(width: seq<T> -> real, maxW: real, lines: seq<seq<T>>) {
    forall i :: 1 <= i < |lines| ==> lines[i] != [] && width(lines[i - 1] + [lines[i][0]]) > maxW
  }

  /** One step of the scan, as `wrapText`'s loop body takes it. */
  lemma WrapFromStep<T>(width: seq<T> -> real, maxW: real, line: seq<T>, rest: seq<T>)
    requires rest != []
    ensures width(line + [rest[0]]) > maxW && line != [] ==>
              WrapFrom(width, maxW, line, rest) == [line] + WrapFrom(width, maxW, [rest[0]], rest[1..])
    ensures !(width(line + [rest[0]]) > maxW && line != []) ==>
              WrapFrom(width, maxW, line, rest) == WrapFrom(width, maxW, line + [rest[0]], rest[1..])
  {
  }

  /** A single unit may overflow on a line of its own; any longer line fits. */
  lemma {:induction false} WrapFromFits<T>(width: seq<T> -> real, maxW: real, line: seq<T>, rest: seq<T>)
    requires |line| >= 2 ==> width(line) <= maxW
    ensures LinesFit(width, maxW, WrapFrom(width, maxW, line, rest))
    decreases |rest|
  {
    if rest != [] {
      var c := rest[0];
      WrapFromStep(width, maxW, line, rest);
      if width(line + [c]) > maxW && line != [] {
        WrapFromFits(width, maxW, [c], rest[1..]);
        var tail := WrapFrom(width, maxW, [c], rest[1..]);
        var lines := [line] + tail;
        forall i | 0 <= i < |lines| && |lines[i]| >= 2
          ensures width(lines[i]) <= maxW
        {
          if i > 0 {
            assert lines[i] == tail[i - 1];
          }
        }
      } else {
        WrapFromFits(width, maxW, line + [c], rest[1..]);
      }
    }
  }

  lemma WrapFits<T>(width: seq<T> -> real, text: seq<T>, maxW: real)
    ensures LinesFit(width, maxW, Wrap(width, text, maxW))
  {
    WrapFromFits(width, maxW, [], text);
  }

  /** Greedy: a line ends only where the next unit would overflow it. */
  lemma {:induction false} WrapFromGreedy<T>(width: seq<T> -> real, maxW: real, line: seq<T>, rest: seq<T>)
    ensures BreaksGreedy(width, maxW, WrapFrom(width, maxW, line, rest))
    decreases |rest|
  {
    if rest != [] {
      var c := rest[0];
      WrapFromStep(width, maxW, line, rest);
      if width(line + [c]) > maxW && line != [] {
        WrapFromGreedy(width, maxW, [c], rest[1..]);
        GreedyAtBreak(width, maxW, line, c, WrapFrom(width, maxW, [c], rest[1..]));
      } else {
        WrapFromGreedy(width, maxW, line + [c], rest[1..]);
      }
    }
  }

  /** The break before `c` keeps the lines greedy: the scan restarts with a line beginning at `c`. */
  lemma GreedyAtBreak<T>(width: seq<T> -> real, maxW: real, line: seq<T>, c: T, tail: seq<seq<T>>)
    requires width(line + [c]) > maxW
    requires |tail| >= 1 && |tail[0]| >= 1 && tail[0][..1] == [c]
    requires BreaksGreedy(width, maxW, tail)
    ensures BreaksGreedy(width, maxW, [line] + tail)
  {
    assert tail[0][0] == c;
    GreedyCons(width, maxW, line, tail);
  }

  /** A line that the next line's first unit would overflow can be put in front of greedy lines. */
  lemma GreedyCons<T>(width: seq<T> -> real, maxW: real, line: seq<T>, tail: seq<seq<T>>)
    requires BreaksGreedy(width, maxW, tail)
    requires tail != [] && tail[0] != [] && width(line + [tail[0][0]]) > maxW
    ensures BreaksGreedy(width, maxW, [line] + tail)
  {
    var lines := [line] + tail;
    forall i | 1 <= i < |lines|
      ensures lines[i] != [] && width(lines[i - 1] + [lines[i][0]]) > maxW
    {
      if i == 1 {
        assert lines[0] == line && lines[1] == tail[0];
      } else {
        assert lines[i - 1] == tail[i - 2] && lines[i] == tail[i - 1];
      }
    }
  }

  lemma WrapGreedy<T>(width: seq<T> -> real, text: seq<T>, maxW: real)
    ensures BreaksGreedy(width, maxW, Wrap(width, text, maxW))
  {
    WrapFromGreedy(width, maxW, [], text);
  }

  /** One `ctx.fillText(line, x, y)` call. */
  datatype Run<T> = Run(text: seq<T>, x: int, y: int)

  /** The wrapped lines placed one line height apart, starting at (x, y). */
  function Runs<T(==)>(width: seq<T> -> real, text: seq<T>, x: int, y: int, maxW: real, lineH: int)
    : (runs: seq<Run<T>>)
    ensures |runs| == |Wrap(width, text, maxW)| >= 1
    ensures forall i :: 0 <= i < |runs| ==>
              runs[i] == Run(Wrap(width, text, maxW)[i], x, y + lineH * i)
  {
    var lines := Wrap(width, text, maxW);
    seq(|lines|, i requires 0 <= i < |lines| => Run(lines[i], x, y + lineH * i))
  }

  /**
   * `wrapText`: emits the lines in order, one line height apart, and returns
   * the y below the last one.
   */
  method WrapText<T(==)>(width: seq<T> -> real, text: seq<T>, x: int, y: int, maxW: real, lineH: int)
    returns (drawn: seq<Run<T>>, nextY: int)
    ensures drawn == Runs(width, text, x, y, maxW, lineH)
    ensures nextY == y + lineH * |drawn|
  {
    ghost var lines := Wrap(width, text, maxW);
    var line: seq<T> := [];
    var cy := y;
    drawn := [];
    for i := 0 to |text|
      invariant cy == y + lineH * |drawn|
      invariant |drawn| < |lines| && lines[|drawn|..] == WrapFrom(width, maxW, line, text[i..])
      invariant forall j :: 0 <= j < |drawn| ==> drawn[j] == Run(lines[j], x, y + lineH * j)
    {
      var c := text[i];
      ghost var rest := text[i..];
      assert rest[0] == c && rest[1..] == text[i + 1..];
      WrapFromStep(width, maxW, line, rest);
      if width(line + [c]) > maxW && line != [] {
        ghost var tail := WrapFrom(width, maxW, [c], text[i + 1..]);
        assert lines[|drawn|..] == [line] + tail;
        assert lines[|drawn|] == line;
        assert lines[|drawn| + 1..] == lines[|drawn|..][1..];
        drawn := drawn + [Run(line, x, cy)];
        line := [c];
        cy := cy + lineH;
      } else {
        line := line + [c];
      }
    }
    assert text[|text|..] == [];
    assert lines[|drawn|..] == [line];
    drawn := drawn + [Run(line, x, cy)];
    nextY := cy + lineH;
  }

  // ---------------------------------------------------------------------------
  // Decimal labels

  function DigitChar(d: int): (c: char)
    requires 0 <= d < 10
    ensures '0' <= c <= '9' && c as int - '0' as int == d
  {
    ('0' as int + d) as char
  }

  /** The decimal digits of `n`, as `${n}` writes them. */
  function NatToString(n: nat): (s: string)
    ensures |s| >= 1 && forall i :: 0 <= i < |s| ==> '0' <= s[i] <= '9'
    decreases n
  {
    if n < 10 then [DigitChar(n)] else NatToString(n / 10) + [DigitChar(n % 10)]
  }

  /** `${n}`: an optional '-' followed by the digits of |n|. */
  function IntToString(n: int): (s: string)
    ensures |s| >= 1 && ((n < 0) <==> s[0] == '-')
  {
    if n < 0 then "-" + NatToString(-n) else NatToString(n)
  }

  function ParseDigits(s: string): nat
    decreases |s|
  {
    if s == [] then 0
    else ParseDigits(s[..|s| - 1]) * 10 + (if '0' <= s[|s| - 1] <= '9' then s[|s| - 1] as int - '0' as int else 0)
  }

  /** `${n}` has no leading zero: it starts with '0' only for 0 itself, which is "0". */
  lemma {:induction false} NatToStringNoLeadingZero(n: nat)
    ensures NatToString(n)[0] == '0' <==> n == 0
    ensures n == 0 ==> NatToString(n) == "0"
    decreases n
  {
    if n >= 10 {
      NatToStringNoLeadingZero(n / 10);
      assert NatToString(n)[0] == NatToString(n / 10)[0];
    }
  }

  /** The digits read back as the number they were written from. */
  lemma {:induction false} NatToStringRoundTrip(n: nat)
    ensures ParseDigits(NatToString(n)) == n
    decreases n
  {
    var s := NatToString(n);
    if n >= 10 {
      NatToStringRoundTrip(n / 10);
      var init := NatToString(n / 10);
      assert s == init + [DigitChar(n % 10)];
      assert s[..|s| - 1] == init;
      assert ParseDigits(s) == ParseDigits(init) * 10 + n % 10;
    } else {
      assert s[..|s| - 1] == [];
    }
  }

  /** After the sign, `${n}` is the digits of |n|: no leading zero, and they read back as |n|. */
  lemma IntToStringDigits(n: int)
    ensures var s := IntToString(n);
            var digits := if n < 0 then s[1..] else s;
            && digits == NatToString(Abs(n))
            && (digits[0] == '0' <==> n == 0)
            && ParseDigits(digits) == Abs(n)
  {
    var d := NatToString(Abs(n));
    NatToStringRoundTrip(Abs(n));
    NatToStringNoLeadingZero(Abs(n));
    if n < 0 {
      assert IntToString(n) == "-" + d;
      assert ("-" + d)[1..] == d;
    }
  }

  // ---------------------------------------------------------------------------
  // The favorability bar

  datatype Rect = Rect(x: real, y: real, w: real, h: real)

  /** A horizontal linear gradient from x0 (colour `from`) to x1 (colour `to`). */
  datatype Gradient = Gradient(x0: real, x1: real, from: string, to: string)

  datatype Fill = Fill(rect: Rect, gradient: Gradient)

  datatype Label = Label(text: string, x: real, y: real, color: string)

  /** What `drawBar` draws: the track, the fill (if any), the divider and its labels. */
  datatype BarLayout = BarLayout(track: Rect, fill: Option<Fill>, divider: Rect, value: Label, delta: Option<Label>)

  datatype UIStyle = UIStyle(
    bgTop: string, bgBottom: string, boxFill: string, boxBorder: string,
    textMain: string, textSub: string, barStart: string, barEnd: string)

  /** The `styles` table. */
  function Style(p: Personality): UIStyle {
    match p
    case Loli => UIStyle("#FFF0F5", "#FFE4E1", "rgba(255,255,255,0.9)", "#FF69B4", "#FF1493", "#888", "#FFB6C1", "#FF1493")
    case Ojou => UIStyle("#F3E5F5", "#E1BEE7", "rgba(40,30,50,0.9)", "#FFD700", "#FFFFFF", "#CCC", "#9370DB", "#4B0082")
    case Milf => UIStyle("#FFF8E1", "#FFE0B2", "rgba(255,250,240,0.95)", "#FFA07A", "#8B4513", "#A0522D", "#FFDAB9", "#FF7F50")
    case Danshi => UIStyle("#E0F7FA", "#B2EBF2", "rgba(255,255,255,0.9)", "#00CED1", "#008B8B", "#5F9EA0", "#AFEEEE", "#00CED1")
  }

  /** No two characters share a style, and each bar gradient runs between two different colours. */
  lemma StylesDistinct(p: Personality, q: Personality)
    ensures p != q ==> Style(p) != Style(q)
    ensures Style(p).barStart != Style(p).barEnd
  {
  }

  const PositiveDeltaColor := "#FF69B4"
  const NegativeDeltaColor := "#B0C4DE"

  function Abs(n: int): nat { if n < 0 then -n else n }

  /** A fraction of a non-negative length is no longer than the length. */
  lemma FractionBound(a: real, b: real)
    requires 0.0 <= a <= 1.0 && 0.0 <= b
    ensures 0.0 <= a * b <= b
  {
    assert b - a * b == (1.0 - a) * b;
  }

  /** `(Math.abs(safeVal) / 100) * (w / 2)`. */
  function FillWidth(safeVal: int, w: real): (fw: real)
    requires -100 <= safeVal <= 100 && 0.0 <= w
    ensures 0.0 <= fw <= w / 2.0
    ensures safeVal == 0 ==> fw == 0.0
    ensures Abs(safeVal) == 100 ==> fw == w / 2.0
  {
    var frac := Abs(safeVal) as real / 100.0;
    var half := w / 2.0;
    FractionBound(frac, half);
    assert Abs(safeVal) == 100 ==> frac == 1.0;
    assert safeVal == 0 ==> frac == 0.0;
    assert frac * half <= half;
    frac * half
  }

  /** The delta annotation: omitted for an absent or zero delta. */
  function DeltaLabel(x: real, y: real, w: real, delta: Option<int>): (l: Option<Label>)
    ensures l.None? <==> delta.None? || delta.value == 0
    ensures l.Some? && delta.value > 0 ==> l.value == Label("+" + IntToString(delta.value), x + w + 5.0, y - 5.0, PositiveDeltaColor)
    ensures l.Some? && delta.value < 0 ==> l.value == Label(IntToString(delta.value), x + w + 5.0, y - 5.0, NegativeDeltaColor)
  {
    if delta.None? || delta.value == 0 then None
    else
      var d := delta.value;
      var sign := if d > 0 then "+" else "";
      Some(Label(sign + IntToString(d), x + w + 5.0, y - 5.0, if d > 0 then PositiveDeltaColor else NegativeDeltaColor))
  }

  /** `drawBar(ctx, x, y, w, h, val, delta, style)` as the shapes and texts it draws. */
  function DrawBar(x: real, y: real, w: real, h: real, val: int, delta: Option<int>, style: UIStyle): (b: BarLayout)
    requires 0.0 <= w
    ensures var mid := x + w / 2.0;
            var safe := Clamp(val, -100, 100);
            && b.track == Rect(x, y, w, h)
            && b.divider == Rect(mid - 1.0, y, 2.0, h)
            && b.value == Label(IntToString(val), mid, y + h / 2.0, "#FFF")
            && b.delta == DeltaLabel(x, y, w, delta)
            && (b.fill.None? <==> val == 0)
            && (b.fill.Some? ==>
                  b.fill.value.rect.w == FillWidth(safe, w)
                  && 0.0 <= b.fill.value.rect.w <= w / 2.0
                  && b.fill.value.rect.y == y && b.fill.value.rect.h == h)
            && (val > 0 ==>
                  b.fill.value.rect.x == mid && b.fill.value.rect.x + b.fill.value.rect.w <= x + w
                  && b.fill.value.gradient == Gradient(mid, mid + FillWidth(safe, w), style.barStart, style.barEnd))
            && (val < 0 ==>
                  b.fill.value.rect.x + b.fill.value.rect.w == mid && x <= b.fill.value.rect.x
                  && b.fill.value.gradient == Gradient(mid, mid - FillWidth(safe, w), "#8B0000", "#FF0000"))
  {
    var safe := Clamp(val, -100, 100);
    var mid := x + w / 2.0;
    var fw := FillWidth(safe, w);
    var fill :=
      if safe > 0 then Some(Fill(Rect(mid, y, fw, h), Gradient(mid, mid + fw, style.barStart, style.barEnd)))
      else if safe < 0 then Some(Fill(Rect(mid - fw, y, fw, h), Gradient(mid, mid - fw, "#8B0000", "#FF0000")))
      else None;
    BarLayout(Rect(x, y, w, h), fill, Rect(mid - 1.0, y, 2.0, h), Label(IntToString(val), mid, y + h / 2.0, "#FFF"),
              DeltaLabel(x, y, w, delta))
  }

  lemma FillOfClamped(x: real, y: real, w: real, h: real, val: int, delta: Option<int>, style: UIStyle)
    requires 0.0 <= w
    ensures DrawBar(x, y, w, h, val, delta, style).fill == DrawBar(x, y, w, h, Clamp(val, -100, 100), delta, style).fill
  {
    assert Clamp(Clamp(val, -100, 100), -100, 100) == Clamp(val, -100, 100);
  }

  /** Out-of-range values draw the fill of the nearest bound; only the number shown differs. */
  lemma BarClampsFill(x: real, y: real, w: real, h: real, val: int, delta: Option<int>, style: UIStyle)
    requires 0.0 <= w
    ensures DrawBar(x, y, w, h, val, delta, style).fill == DrawBar(x, y, w, h, Clamp(val, -100, 100), delta, style).fill
    ensures DrawBar(x, y, w, h, 150, delta, style).fill == DrawBar(x, y, w, h, 100, delta, style).fill
    ensures DrawBar(x, y, w, h, -200, delta, style).fill == DrawBar(x, y, w, h, -100, delta, style).fill
    ensures DrawBar(x, y, w, h, 150, delta, style).value.text == IntToString(150)
  {
    FillOfClamped(x, y, w, h, val, delta, style);
    FillOfClamped(x, y, w, h, 150, delta, style);
    FillOfClamped(x, y, w, h, -200, delta, style);
  }

  // ---------------------------------------------------------------------------
  // Sprite files

  /** The `personalityMap` of `getImagePath`. */
  function ImageFolder(p: Personality): string {
    match p
    case Loli => "loli"
    case Ojou => "gril"
    case Milf => "woman"
    case Danshi => "mft"
  }

  /** The `emotionMap` of `getImagePath`. */
  function ImageFile(e: Emotion): string {
    match e
    case Happy => "happy.png"
    case Sad => "sad.png"
    case Angry => "angry.png"
    case Think => "think.png"
  }

  /** `getImagePath` as the two path segments it joins below the base path. */
  function ImagePath(p: Personality, e: Emotion): (path: (string, string))
    ensures path.0 == FolderName(p)
  {
    (ImageFolder(p), ImageFile(e))
  }

  /** Each (personality, emotion) pair has a sprite file of its own. */
  lemma ImagePathInjective(p: Personality, e: Emotion, p': Personality, e': Emotion)
    requires ImagePath(p, e) == ImagePath(p', e')
    ensures p == p' && e == e'
  {
  }

  // ---------------------------------------------------------------------------
  // The picture

  const CanvasWidth := 800
  const CanvasHeight := 600
  const BoxHeight := 220
  const BoxX := 20
  const BoxY := CanvasHeight - BoxHeight - 20
  const BoxWidth := CanvasWidth - 40
  const TagWidth := 140
  const TagHeight := 40
  const TagY := BoxY - 30
  const TextX := BoxX + 30
  const TextTop := BoxY + 35
  const MaxTextWidth := BoxWidth - 60
  const MainLineHeight := 34
  /** The main text's font size in px (`26px`). */
  const MainFontSize := 26
  const ThoughtLineHeight := 28
  const ThoughtGap := 10

  /** The fonts text is measured in: all of them use the same family. */
  datatype Font = TagFont | ThoughtFont | MainFont | BarValueFont | BarDeltaFont

  datatype BubbleConfig = BubbleConfig(
    text: seq<CodeUnit>,
    emotion: Emotion,
    personality: Personality,
    showFavorability: bool,
    favorability: Option<int>,
    favorabilityDelta: Option<int>,
    showInnerThought: bool,
    innerThought: Option<seq<CodeUnit>>)

  /** The pixel size of the decoded sprite file, when it exists and decodes. */
  datatype SpriteSource = SpriteSource(width: nat, height: nat)

  /** `ctx.measureText(t).width` with `ctx.font` set to `font`. */
  function InFont(measure: (Font, seq<CodeUnit>) -> real, font: Font): seq<CodeUnit> -> real {
    t => measure(font, t)
  }

  datatype TextBlock = TextBlock(font: Font, color: string, runs: seq<Run<CodeUnit>>, nextY: int)

  datatype Scene = Scene(
    width: int, height: int,
    background: (string, string),
    spritePath: (string, string),
    sprite: Option<Rect>,
    box: Rect, boxFill: string, boxBorder: string,
    tag: Rect, tagName: string,
    thought: Option<TextBlock>,
    main: TextBlock,
    bar: Option<BarLayout>)

  function Texts(runs: seq<Run<CodeUnit>>): (r: seq<seq<CodeUnit>>)
    ensures |r| == |runs| && forall i :: 0 <= i < |runs| ==> r[i] == runs[i].text
  {
    seq(|runs|, i requires 0 <= i < |runs| => runs[i].text)
  }

  /** The inner-thought line as `generateBubbleImage` builds it. */
  function ThoughtText(t: seq<CodeUnit>): seq<CodeUnit> {
    Utf16("(💭 ") + t + Utf16(")")
  }

  /** Where the sprite goes: centred plus 120px, standing on the bottom edge. */
  function PlaceSprite(sprite: Option<SpriteSource>): (r: Option<Rect>)
    ensures r.Some? <==> sprite.Some? && sprite.value.width > 0
    ensures r.Some? ==> r.value.y + r.value.h == CanvasHeight as real
    ensures r.Some? ==> r.value.w <= 600.0 && r.value.h <= 570.0
    ensures r.Some? ==> r.value.x == (CanvasWidth as real - r.value.w) / 2.0 + 120.0
  {
    if sprite.None? then None
    else
      var size := ScaledSize(sprite.value.width, sprite.value.height,
                             CanvasWidth as real * 0.75, CanvasHeight as real * 0.95);
      if size.None? then None
      else
        var s := size.value;
        Some(Rect((CanvasWidth as real - s.w) / 2.0 + 120.0, CanvasHeight as real - s.h, s.w, s.h))
  }

  /**
   * `generateBubbleImage`: every coordinate and text it gives the canvas.
   * `measure` stands for `ctx.measureText(..).width` in a given font.
   */
  function Compose(c: BubbleConfig, measure: (Font, seq<CodeUnit>) -> real, sprite: Option<SpriteSource>)
    : (s: Scene)
    ensures s.width == 800 && s.height == 600
    ensures s.box == Rect(20.0, 360.0, 760.0, 220.0)
    ensures s.tag == Rect(20.0, 330.0, 140.0, 40.0) && s.tagName == DisplayName(c.personality)
    ensures s.spritePath == ImagePath(c.personality, c.emotion)
    ensures s.sprite == PlaceSprite(sprite)
    ensures s.thought.Some? <==> c.showInnerThought && c.innerThought.Some? && c.innerThought.value != []
    ensures s.thought.Some? ==>
              s.thought.value.runs
                == Runs(InFont(measure, ThoughtFont), ThoughtText(c.innerThought.value), 50, 395, 700.0, 28)
              && s.thought.value.nextY == 395 + 28 * |s.thought.value.runs|
    ensures s.main.runs
              == Runs(InFont(measure, MainFont), c.text, 50,
                      if s.thought.Some? then s.thought.value.nextY + 10 else 395, 700.0, 34)
    ensures (s.bar.Some? <==> c.showFavorability && c.favorability.Some?)
    ensures s.bar.Some? ==>
              s.bar.value == DrawBar(560.0, 325.0, 200.0, 24.0, c.favorability.value, c.favorabilityDelta,
                                     Style(c.personality))
  {
    var style := Style(c.personality);
    var boxY := BoxY;
    var thoughtOn := c.showInnerThought && c.innerThought.Some? && c.innerThought.value != [];
    var thought :=
      if thoughtOn then
        var runs := Runs(InFont(measure, ThoughtFont), ThoughtText(c.innerThought.value),
                         TextX, TextTop, MaxTextWidth as real, ThoughtLineHeight);
        Some(TextBlock(ThoughtFont, style.textSub, runs, TextTop + ThoughtLineHeight * |runs|))
      else None;
    var mainY := if thoughtOn then thought.value.nextY + ThoughtGap else TextTop;
    var mainRuns := Runs(InFont(measure, MainFont), c.text, TextX, mainY, MaxTextWidth as real, MainLineHeight);
    var main := TextBlock(MainFont, style.textMain, mainRuns, mainY + MainLineHeight * |mainRuns|);
    var bar :=
      if c.showFavorability && c.favorability.Some? then
        Some(DrawBar((CanvasWidth - 240) as real, (boxY - 35) as real, 200.0, 24.0,
                     c.favorability.value, c.favorabilityDelta, style))
      else None;
    Scene(CanvasWidth, CanvasHeight, (style.bgTop, style.bgBottom), ImagePath(c.personality, c.emotion),
          PlaceSprite(sprite),
          Rect(BoxX as real, boxY as real, BoxWidth as real, BoxHeight as real), style.boxFill, style.boxBorder,
          Rect(BoxX as real, TagY as real, TagWidth as real, TagHeight as real), DisplayName(c.personality),
          thought, main, bar)
  }

  /** The main text is drawn in full, in order, whatever its length; the canvas stays 800x600. */
  lemma ComposeDrawsWholeText(c: BubbleConfig, measure: (Font, seq<CodeUnit>) -> real, sprite: Option<SpriteSource>)
    ensures var s := Compose(c, measure, sprite);
            Concat(Texts(s.main.runs)) == c.text && s.height == CanvasHeight
  {
    var s := Compose(c, measure, sprite);
    var width := InFont(measure, MainFont);
    var y := if s.thought.Some? then s.thought.value.nextY + 10 else 395;
    WrapPartitions(width, c.text, 700.0);
    assert Texts(s.main.runs) == Wrap(width, c.text, 700.0);
  }

  /**
   * Without a thought, the sixth line of main text starts at y = 565, so its
   * 26px glyphs (drawn with `textBaseline = 'top'`) cross the box's bottom edge
   * at 580; a seventh line starts at 599, wholly below the box.
   */
  lemma LongTextLeavesTheBox(c: BubbleConfig, measure: (Font, seq<CodeUnit>) -> real, sprite: Option<SpriteSource>)
    requires !c.showInnerThought
    requires |Compose(c, measure, sprite).main.runs| >= 6
    ensures var s := Compose(c, measure, sprite);
            && s.main.runs[5].y == 565
            && (s.main.runs[5].y as real) < s.box.y + s.box.h < (s.main.runs[5].y + MainFontSize) as real
    ensures var s := Compose(c, measure, sprite);
            |s.main.runs| >= 7 ==> s.main.runs[6].y == 599 && (s.main.runs[6].y as real) > s.box.y + s.box.h
  {
  }
}
