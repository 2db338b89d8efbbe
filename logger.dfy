/**
 * The pad-width table of the console log format (app/logger.js:6-9, 17-45):
 * `padString` remembers, per field name, the longest string seen so far and
 * pads every string to that width.
 */
module Logger {

  const PAD_CHAR: char := ' '
  const PAD_LEFT: int := 0
  const PAD_RIGHT: int := 1

  /** `getPadString(count)`: exactly `count` pad characters. */
  function GetPadString(count: nat): (r: string)
    ensures |r| == count
    ensures forall i :: 0 <= i < |r| ==> r[i] == PAD_CHAR
  {
    if count == 0 then "" else [PAD_CHAR] + GetPadString(count - 1)
  }

  function Max(a: nat, b: nat): nat
  {
    if a < b then b else a
  }

  /**
   * The width table after a string of length `len` is padded under `name`:
   * the name's width becomes the larger of its old width and `len` (or `len`
   * when the name is new); every other name keeps its width.
   */
  function Widen(widths: map<string, nat>, name: string, len: nat): (r: map<string, nat>)
    ensures name in r && r[name] >= len
    ensures name in widths ==> r[name] >= widths[name]
    ensures r[name] == len || (name in widths && r[name] == widths[name])
    ensures forall n :: n != name ==> (n in r <==> n in widths)
    ensures forall n :: n != name && n in widths ==> r[n] == widths[n]
  {
    widths[name := if name in widths then Max(widths[name], len) else len]
  }

  /** The width table and the string one `padString` call returns. */
  datatype Padded = Padded(widths: map<string, nat>, text: string)

  /**
   * `padString(name, s, padDir)` on the width table `widths`: the width for
   * `name` becomes the larger of its old width and `|s|` (or `|s|` when the
   * name is new), other names keep theirs, and `s` is padded on the left or
   * on the right to that width; any other direction returns `s` as it is.
   */
  function PadStep(widths: map<string, nat>, name: string, s: string, padDir: int): (r: Padded)
    ensures r.widths == Widen(widths, name, |s|)
    ensures padDir == PAD_LEFT || padDir == PAD_RIGHT ==> |r.text| == r.widths[name]
    ensures padDir == PAD_LEFT ==>
              r.text[|r.text| - |s|..] == s && forall i :: 0 <= i < |r.text| - |s| ==> r.text[i] == PAD_CHAR
    ensures padDir == PAD_RIGHT ==>
              r.text[..|s|] == s && forall i :: |s| <= i < |r.text| ==> r.text[i] == PAD_CHAR
    ensures padDir != PAD_LEFT && padDir != PAD_RIGHT ==> r.text == s
  {
    var widened := Widen(widths, name, |s|);
    var width := widened[name];
    var text :=
      if padDir == PAD_LEFT then GetPadString(width - |s|) + s
      else if padDir == PAD_RIGHT then s + GetPadString(width - |s|)
      else s;
    Padded(widened, text)
  }

  /** Repeating a call with the same name and string gives the same text and table. */
  lemma PadStepRepeat(widths: map<string, nat>, name: string, s: string, padDir: int)
    ensures var once := PadStep(widths, name, s, padDir);
            PadStep(once.widths, name, s, padDir) == once
  {
    var once := PadStep(widths, name, s, padDir);
    assert once.widths[name := once.widths[name]] == once.widths;
  }

  /** One `padString` call, as logged by the console format. */
  datatype PadCall = PadCall(name: string, s: string, padDir: int)

  /** The width table after a sequence of calls (the returned strings play no part). */
  function PadAll(widths: map<string, nat>, calls: seq<PadCall>): map<string, nat>
    decreases |calls|
  {
    if |calls| == 0 then widths
    else PadAll(Widen(widths, calls[0].name, |calls[0].s|), calls[1..])
  }

  /** Widths never shrink, and a name once seen stays in the table. */
  lemma {:induction false} PadAllMonotone(widths: map<string, nat>, calls: seq<PadCall>)
    ensures forall n :: n in widths ==> n in PadAll(widths, calls) && PadAll(widths, calls)[n] >= widths[n]
    decreases |calls|
  {
    if |calls| > 0 {
      PadAllMonotone(Widen(widths, calls[0].name, |calls[0].s|), calls[1..]);
    }
  }

  /** After a sequence of calls, each name's width covers every string padded under it. */
  lemma {:induction false} PadAllCovers(widths: map<string, nat>, calls: seq<PadCall>, i: int)
    requires 0 <= i < |calls|
    ensures calls[i].name in PadAll(widths, calls)
    ensures PadAll(widths, calls)[calls[i].name] >= |calls[i].s|
    decreases |calls|
  {
    var next := Widen(widths, calls[0].name, |calls[0].s|);
    assert PadAll(widths, calls) == PadAll(next, calls[1..]);
    if i == 0 {
      PadAllMonotone(next, calls[1..]);
    } else {
      assert calls[1..][i - 1] == calls[i];
      PadAllCovers(next, calls[1..], i - 1);
    }
  }

  /** The module-level `toPadParts` map, updated in place by `padString`. */
  class PadTable {
    var toPadParts: map<string, nat>

    constructor ()
      ensures toPadParts == map[]
    {
      toPadParts := map[];
    }

    /** `padString(name, string, padDir)`. */
    method PadString(name: string, s: string, padDir: int) returns (r: string)
      modifies this
      ensures Padded(toPadParts, r) == PadStep(old(toPadParts), name, s, padDir)
    {
      // `toPadParts.get(name)` is falsy when the name is new and when its width is 0.
      if name in toPadParts && toPadParts[name] != 0 {
        if |s| > toPadParts[name] {
          toPadParts := toPadParts[name := |s|];
        }
      } else {
        toPadParts := toPadParts[name := |s|];
      }
      var charCount := toPadParts[name] - |s|;
      if padDir == PAD_LEFT {
        r := GetPadString(charCount) + s;
      } else if padDir == PAD_RIGHT {
        r := s + GetPadString(charCount);
      } else {
        r := s;
      }
    }
  }
}
