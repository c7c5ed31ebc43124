/**
 * The text side of the bot's OCR helpers: turning what EasyOCR read into an
 * order timer in seconds or into a cleaned worker name, normalising text
 * for comparison, and choosing the best-matching detections on screen.
 * The OCR engine, the screenshot and the similarity ratio are inputs.
 */
module Ocr {
  import opened Wrappers
  import opened Numerals

  /** The characters of `s` that satisfy `keep`, in order (`re.sub` with a negated class). */
  function Keep(s: string, keep: char -> bool): (r: string)
    ensures |r| <= |s|
    ensures forall i :: 0 <= i < |r| ==> keep(r[i])
  {
    if s == [] then []
    else
      var rest := Keep(s[1..], keep);
      if keep(s[0]) then [s[0]] + rest else rest
  }

  /** Each character is kept as often as it occurs if `keep` accepts it, and never otherwise. */
  lemma {:induction false} KeepCounts(s: string, keep: char -> bool, c: char)
    ensures multiset(Keep(s, keep))[c] == if keep(c) then multiset(s)[c] else 0
  {
    if s != [] {
      assert s == [s[0]] + s[1..];
      KeepCounts(s[1..], keep, c);
    }
  }

  /** Every kept character comes from `s`, so a property of all of `s` holds of all of the result. */
  lemma {:induction false} KeepPreserves(s: string, keep: char -> bool, p: char -> bool)
    requires forall i :: 0 <= i < |s| ==> p(s[i])
    ensures forall i :: 0 <= i < |Keep(s, keep)| ==> p(Keep(s, keep)[i])
  {
    if s != [] {
      KeepPreserves(s[1..], keep, p);
    }
  }

  /** Filtering commutes with concatenation: the kept characters stay in input order. */
  lemma {:induction false} KeepConcat(a: string, b: string, keep: char -> bool)
    ensures Keep(a + b, keep) == Keep(a, keep) + Keep(b, keep)
  {
    if a != [] {
      var ab := a + b;
      assert ab[0] == a[0] && ab[1..] == a[1..] + b;
      KeepConcat(a[1..], b, keep);
      calc {
        Keep(ab, keep);
        (if keep(a[0]) then [a[0]] else []) + Keep(a[1..] + b, keep);
        (if keep(a[0]) then [a[0]] else []) + (Keep(a[1..], keep) + Keep(b, keep));
        ((if keep(a[0]) then [a[0]] else []) + Keep(a[1..], keep)) + Keep(b, keep);
      }
    } else {
      assert a + b == b;
    }
  }

  /** A string made only of kept characters is left as it is. */
  lemma {:induction false} KeepAll(s: string, keep: char -> bool)
    requires forall i :: 0 <= i < |s| ==> keep(s[i])
    ensures Keep(s, keep) == s
  {
    if s != [] {
      KeepAll(s[1..], keep);
    }
  }

  /** `"".join(texts)` */
  function Join(texts: seq<string>): (r: string)
    ensures |texts| == 1 ==> r == texts[0]
  {
    if texts == [] then "" else texts[0] + Join(texts[1..])
  }

  /** Joining two runs of texts is joining each and concatenating: nothing is dropped, added or reordered. */
  lemma {:induction false} JoinConcat(a: seq<string>, b: seq<string>)
    ensures Join(a + b) == Join(a) + Join(b)
  {
    if a == [] {
      assert a + b == b;
    } else {
      assert (a + b)[0] == a[0] && (a + b)[1..] == a[1..] + b;
      JoinConcat(a[1..], b);
    }
  }

  /** Six digits read as HHMMSS. */
  function HhMmSs(d: string): (r: nat)
    requires |d| == 6 && AllDigits(d)
    ensures r <= 362439
  {
    TwoDigits(d[..2]);
    TwoDigits(d[2..4]);
    TwoDigits(d[4..]);
    DecimalValue(d[..2]) * 3600 + DecimalValue(d[2..4]) * 60 + DecimalValue(d[4..])
  }

  lemma TwoDigits(s: string)
    requires |s| == 2 && AllDigits(s)
    ensures DecimalValue(s) == DigitValue(s[0]) * 10 + DigitValue(s[1])
    ensures DecimalValue(s) <= 99
  {
    var first := s[..1];
    assert first[..0] == [] && first[0] == s[0];
    assert DecimalValue(first) == DigitValue(s[0]);
    assert s[..|s| - 1] == first;
  }

  /**
   * The parsing part of `read_timer_from_region`. `ocr` is None when the
   * screenshot could not be loaded, otherwise the list of texts EasyOCR read.
   */
  function ParseTimer(ocr: Option<seq<string>>): (r: Option<nat>)
    ensures r.Some? <==> ocr.Some? && ocr.value != [] && |Keep(Join(ocr.value), IsDigitChar)| == 6
    ensures r.Some? ==> r.value <= 362439
  {
    if ocr.None? || ocr.value == [] then None
    else
      var cleaned := Keep(Join(ocr.value), IsDigitChar);
      if |cleaned| == 6 then Some(HhMmSs(cleaned)) else None
  }

  /** How the game displays an order timer: "HH:MM:SS". */
  function TimerDisplay(h: nat, m: nat, s: nat): string
  {
    Pad2(h) + ":" + Pad2(m) + ":" + Pad2(s)
  }

  /** Reading back a displayed timer (colons and all) yields its length in seconds. */
  lemma TimerRoundTrip(h: nat, m: nat, s: nat)
    requires h < 100 && m < 100 && s < 100
    ensures ParseTimer(Some([TimerDisplay(h, m, s)])) == Some(h * 3600 + m * 60 + s)
  {
    Pad2Spec(h);
    Pad2Spec(m);
    Pad2Spec(s);
    KeepAll(Pad2(h), IsDigitChar);
    KeepAll(Pad2(m), IsDigitChar);
    KeepAll(Pad2(s), IsDigitChar);
    assert Keep(":", IsDigitChar) == "";
    KeepConcat(Pad2(h), ":", IsDigitChar);
    KeepConcat(Pad2(h) + ":", Pad2(m), IsDigitChar);
    KeepConcat(Pad2(h) + ":" + Pad2(m), ":", IsDigitChar);
    KeepConcat(Pad2(h) + ":" + Pad2(m) + ":", Pad2(s), IsDigitChar);
    var cleaned := Pad2(h) + Pad2(m) + Pad2(s);
    assert Keep(TimerDisplay(h, m, s), IsDigitChar) == cleaned;
    assert cleaned[..2] == Pad2(h) && cleaned[2..4] == Pad2(m) && cleaned[4..] == Pad2(s);
  }

  /** "012345" is 1 h 23 min 45 s. */
  lemma TimerExample()
    ensures ParseTimer(Some(["012345"])) == Some(5025)
  {
    var t := "012345";
    KeepAll(t, IsDigitChar);
    TwoDigits(t[..2]);
    TwoDigits(t[2..4]);
    TwoDigits(t[4..]);
  }

  /** Minutes and seconds are not range-checked: "009999" reads as 99 min 99 s. */
  lemma TimerFieldsUnchecked()
    ensures ParseTimer(Some(["009999"])) == Some(99 * 60 + 99)
  {
    var t := "009999";
    KeepAll(t, IsDigitChar);
    TwoDigits(t[..2]);
    TwoDigits(t[2..4]);
    TwoDigits(t[4..]);
  }

  predicate IsAsciiLetter(c: char)
  {
    'a' <= c <= 'z' || 'A' <= c <= 'Z'
  }

  predicate IsAsciiAlnum(c: char)
  {
    IsAsciiLetter(c) || IsDigitChar(c)
  }

  /**
   * The cleaning in `read_text_from_region`: None when the screenshot could
   * not be loaded or nothing was read, otherwise the ASCII letters and
   * digits of the joined text, in order (possibly none).
   */
  function CleanText(ocr: Option<seq<string>>): (r: Option<string>)
    ensures r.Some? <==> ocr.Some? && ocr.value != []
    ensures r.Some? ==> forall i :: 0 <= i < |r.value| ==> IsAsciiAlnum(r.value[i])
    ensures r.Some? ==> forall c :: multiset(r.value)[c] == if IsAsciiAlnum(c) then multiset(Join(ocr.value))[c] else 0
  {
    if ocr.None? || ocr.value == [] then None
    else
      var joined := Join(ocr.value);
      forall c
        ensures multiset(Keep(joined, IsAsciiAlnum))[c] == if IsAsciiAlnum(c) then multiset(joined)[c] else 0
      {
        KeepCounts(joined, IsAsciiAlnum, c);
      }
      Some(Keep(joined, IsAsciiAlnum))
  }

  /**
   * Cleaning keeps the order of the joined text: cutting it anywhere and
   * cleaning the two pieces gives the two cleaned pieces one after the
   * other. With the counts in `CleanText`'s contract, this fixes the result
   * character by character.
   */
  lemma CleanTextInOrder(texts: seq<string>, i: nat)
    requires texts != [] && i <= |Join(texts)|
    ensures CleanText(Some(texts)).value
      == CleanText(Some([Join(texts)[..i]])).value + CleanText(Some([Join(texts)[i..]])).value
  {
    var joined := Join(texts);
    assert joined == joined[..i] + joined[i..];
    KeepConcat(joined[..i], joined[i..], IsAsciiAlnum);
  }

  /** The characters Python's `str.strip()` and `\s` treat as whitespace (ASCII range). */
  predicate IsSpace(c: char)
  {
    c == ' ' || c == '\t' || c == '\n' || c == '\r' || c == '\U{B}' || c == '\U{C}'
    || ('\U{1C}' <= c <= '\U{1F}')
  }

  /** A regular-expression word character `\w` (ASCII range). */
  predicate IsWordChar(c: char)
  {
    IsAsciiAlnum(c) || c == '_'
  }

  function LowerChar(c: char): char
  {
    if 'A' <= c <= 'Z' then (c as int + 32) as char else c
  }

  /** `str.lower()` on the ASCII range. */
  function Lower(s: string): (r: string)
    ensures |r| == |s|
    ensures forall i :: 0 <= i < |s| ==> r[i] == LowerChar(s[i])
  {
    if s == [] then [] else [LowerChar(s[0])] + Lower(s[1..])
  }

  /** How many whitespace characters `s` starts with. */
  function LeadingSpaces(s: string): (k: nat)
    ensures k <= |s|
    ensures forall i :: 0 <= i < k ==> IsSpace(s[i])
    ensures k < |s| ==> !IsSpace(s[k])
  {
    if s != [] && IsSpace(s[0]) then 1 + LeadingSpaces(s[1..]) else 0
  }

  /** Where the whitespace at the end of `s` starts. */
  function TrailingStart(s: string): (j: nat)
    ensures j <= |s|
    ensures forall i :: j <= i < |s| ==> IsSpace(s[i])
    ensures j > 0 ==> !IsSpace(s[j - 1])
  {
    if s != [] && IsSpace(s[|s| - 1]) then TrailingStart(s[..|s| - 1]) else |s|
  }

  /** `str.strip()`: the slice of `s` between its leading and trailing whitespace. */
  function Strip(s: string): (r: string)
    ensures r == [] || (!IsSpace(r[0]) && !IsSpace(r[|r| - 1]))
    ensures r == [] ==> forall i :: 0 <= i < |s| ==> IsSpace(s[i])
    ensures LeadingSpaces(s) + |r| <= |s| && r == s[LeadingSpaces(s)..LeadingSpaces(s) + |r|]
    ensures forall k :: LeadingSpaces(s) + |r| <= k < |s| ==> IsSpace(s[k])
  {
    var i := LeadingSpaces(s);
    if i == |s| then []
    else
      var j := TrailingStart(s);
      assert i < j;
      s[i..j]
  }

  predicate IsWordOrSpace(c: char)
  {
    IsWordChar(c) || IsSpace(c)
  }

  predicate NotUpper(c: char)
  {
    !('A' <= c <= 'Z')
  }

  /** `_preprocess_text`: lower-case, strip, then delete every character that is neither `\w` nor `\s`. */
  function Preprocess(text: string): (r: string)
    ensures forall i :: 0 <= i < |r| ==> IsWordOrSpace(r[i]) && NotUpper(r[i])
    ensures forall c :: multiset(r)[c] == if IsWordOrSpace(c) then multiset(Strip(Lower(text)))[c] else 0
  {
    var stripped := Strip(Lower(text));
    assert forall i :: 0 <= i < |stripped| ==> NotUpper(stripped[i]);
    KeepPreserves(stripped, IsWordOrSpace, NotUpper);
    forall c
      ensures multiset(Keep(stripped, IsWordOrSpace))[c] == if IsWordOrSpace(c) then multiset(stripped)[c] else 0
    {
      KeepCounts(stripped, IsWordOrSpace, c);
    }
    Keep(stripped, IsWordOrSpace)
  }

  /** Only the punctuation goes from "a !": the space before it is inside the stripped text. */
  lemma PreprocessPunctuatedEdge()
    ensures Preprocess("a !") == "a "
  {
    assert Lower("a !") == "a !";
    assert LeadingSpaces("a !") == 0 && TrailingStart("a !") == 3;
    assert Strip("a !") == "a !";
    assert Keep("a !", IsWordOrSpace) == "a ";
  }

  /**
   * Stripping happens before punctuation is deleted, so a text whose edge is
   * punctuation keeps the whitespace next to it: the normalisation is not idempotent.
   */
  lemma PreprocessKeepsInnerEdgeSpace()
    ensures Preprocess("a !") == "a "
    ensures Preprocess(Preprocess("a !")) == "a"
  {
    PreprocessPunctuatedEdge();
    assert Lower("a ") == "a ";
    assert LeadingSpaces("a ") == 0 && TrailingStart("a ") == 1;
    assert Strip("a ") == "a";
    assert Keep("a", IsWordOrSpace) == "a";
  }

  datatype Point = Point(x: int, y: int)

  /** The four corners EasyOCR reports for a detection. */
  datatype Box = Box(p1: Point, p2: Point, p3: Point, p4: Point)

  /**
   * One detection as `find_text_coordinates` sees it: its box, EasyOCR's
   * confidence, and the similarity ratio of its normalised text to the
   * normalised target (computed by the library, so an input here).
   */
  datatype Detection = Detection(box: Box, confidence: real, similarity: real)

  /** `int(sum(coords) / len(coords))` for both axes. */
  function Center(b: Box): Point
  {
    Point(TruncateTowardZero((b.p1.x + b.p2.x + b.p3.x + b.p4.x) as real / 4.0),
          TruncateTowardZero((b.p1.y + b.p2.y + b.p3.y + b.p4.y) as real / 4.0))
  }

  const MinOcrConfidence: real := 0.3

  /** A detection that is neither skipped for low OCR confidence nor below the similarity threshold. */
  predicate Eligible(d: Detection, threshold: real)
  {
    d.confidence >= MinOcrConfidence && d.similarity >= threshold
  }

  /** The highest similarity among the eligible detections, or 0.0 when there is none. */
  function MaxSimilarity(ds: seq<Detection>, threshold: real): (m: real)
    ensures m >= 0.0
    ensures forall i :: 0 <= i < |ds| && Eligible(ds[i], threshold) ==> ds[i].similarity <= m
    ensures m == 0.0 || exists i :: 0 <= i < |ds| && Eligible(ds[i], threshold) && ds[i].similarity == m
  {
    if ds == [] then 0.0
    else
      var m := MaxSimilarity(ds[..|ds| - 1], threshold);
      var d := ds[|ds| - 1];
      if Eligible(d, threshold) && d.similarity > m then d.similarity else m
  }

  /** The centres of the eligible detections whose similarity is exactly `m`, in input order. */
  function CentersAt(ds: seq<Detection>, threshold: real, m: real): seq<Point>
  {
    if ds == [] then []
    else
      var earlier := CentersAt(ds[..|ds| - 1], threshold, m);
      var d := ds[|ds| - 1];
      if Eligible(d, threshold) && d.similarity == m then earlier + [Center(d.box)] else earlier
  }

  lemma {:induction false} CentersAboveMax(ds: seq<Detection>, threshold: real, m: real)
    requires forall i :: 0 <= i < |ds| && Eligible(ds[i], threshold) ==> ds[i].similarity < m
    ensures CentersAt(ds, threshold, m) == []
  {
    if ds != [] {
      CentersAboveMax(ds[..|ds| - 1], threshold, m);
    }
  }

  lemma {:induction false} CentersOfWitness(ds: seq<Detection>, threshold: real, k: nat)
    requires k < |ds| && Eligible(ds[k], threshold)
    ensures CentersAt(ds, threshold, ds[k].similarity) != []
  {
    if k < |ds| - 1 {
      var e := CentersAt(ds[..|ds| - 1], threshold, ds[k].similarity);
      CentersOfWitness(ds[..|ds| - 1], threshold, k);
    }
  }

  lemma {:induction false} CentersHaveWitness(ds: seq<Detection>, threshold: real, m: real)
    requires CentersAt(ds, threshold, m) != []
    ensures exists i :: 0 <= i < |ds| && Eligible(ds[i], threshold)
  {
    var d := ds[|ds| - 1];
    if !(Eligible(d, threshold) && d.similarity == m) {
      CentersHaveWitness(ds[..|ds| - 1], threshold, m);
      var i :| 0 <= i < |ds| - 1 && Eligible(ds[..|ds| - 1][i], threshold);
      assert ds[i] == ds[..|ds| - 1][i];
    }
  }

  /**
   * The selection loop of `find_text_coordinates`. `screen` is None when the
   * screenshot could not be loaded, otherwise the detections in OCR order.
   * The result lists the centres of the eligible detections of highest
   * similarity, in input order, or is None when no detection is eligible.
   */
  method FindTextCoordinates(screen: Option<seq<Detection>>, threshold: real) returns (r: Option<seq<Point>>)
    requires screen.Some? ==> forall i :: 0 <= i < |screen.value| ==> 0.0 <= screen.value[i].similarity
    ensures screen.None? ==> r.None?
    ensures screen.Some? ==> (r.None? <==> forall i :: 0 <= i < |screen.value| ==> !Eligible(screen.value[i], threshold))
    ensures r.Some? ==> r.value != [] && r.value == CentersAt(screen.value, threshold, MaxSimilarity(screen.value, threshold))
  {
    if screen.None? {
      return None;
    }
    var ds := screen.value;
    var best: seq<Point> := [];
    var highest := 0.0;
    var i := 0;
    while i < |ds|
      invariant 0 <= i <= |ds|
      invariant highest == MaxSimilarity(ds[..i], threshold)
      invariant best == CentersAt(ds[..i], threshold, highest)
    {
      var d := ds[i];
      assert ds[..i + 1][..i] == ds[..i] && ds[..i + 1][i] == d;
      if d.confidence < MinOcrConfidence {
      } else if d.similarity >= threshold {
        var c := Center(d.box);
        if d.similarity > highest {
          CentersAboveMax(ds[..i], threshold, d.similarity);
          best := [c];
          highest := d.similarity;
        } else if d.similarity == highest {
          best := best + [c];
        } else {
        }
      }
      i := i + 1;
    }
    assert ds[..i] == ds;
    if best == [] {
      forall k | 0 <= k < |ds| ensures !Eligible(ds[k], threshold) {
        if Eligible(ds[k], threshold) {
          if highest == 0.0 {
            assert ds[k].similarity == 0.0;
            CentersOfWitness(ds, threshold, k);
          } else {
            var w :| 0 <= w < |ds| && Eligible(ds[w], threshold) && ds[w].similarity == highest;
            CentersOfWitness(ds, threshold, w);
          }
        }
      }
      return None;
    }
    CentersHaveWitness(ds, threshold, highest);
    return Some(best);
  }
}
