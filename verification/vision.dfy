/**
 * The list handling around template matching: collapsing clusters of nearby
 * matches into one, ordering matches by confidence, and choosing which
 * template file to load. OpenCV's matching itself and the file system are
 * outside the model (file existence is a predicate supplied by the caller).
 */
module Vision {
  import opened Wrappers

  /** A template match: its centre on screen and the matcher's confidence. */
  datatype Match = Match(x: int, y: int, confidence: real)

  const DefaultMinDistance: real := 8.0

  /**
   * `((dx)**2 + (dy)**2)**0.5 < min_distance`, decided on squares: a
   * Euclidean distance is below a non-positive bound for no pair.
   */
  predicate Near(a: Match, b: Match, minDistance: real)
  {
    minDistance > 0.0 && SquaredDistance(a, b) as real < minDistance * minDistance
  }

  function SquaredDistance(a: Match, b: Match): int
  {
    (a.x - b.x) * (a.x - b.x) + (a.y - b.y) * (a.y - b.y)
  }

  /** The generator passed to `any(...)`: `m` is close to some match already kept. */
  predicate NearAny(m: Match, kept: seq<Match>, minDistance: real)
  {
    exists j :: 0 <= j < |kept| && Near(m, kept[j], minDistance)
  }

  /**
   * The matches the greedy pass keeps, in input order: a match is kept
   * exactly when it is not near any match kept before it.
   */
  function Kept(ms: seq<Match>, minDistance: real): (k: seq<Match>)
    ensures |k| <= |ms|
  {
    if ms == [] then []
    else
      var earlier := Kept(ms[..|ms| - 1], minDistance);
      var m := ms[|ms| - 1];
      if NearAny(m, earlier, minDistance) then earlier else earlier + [m]
  }

  /** The first match is always kept, and comes first. */
  lemma {:induction false} KeptFirst(ms: seq<Match>, minDistance: real)
    requires ms != []
    ensures Kept(ms, minDistance) != [] && Kept(ms, minDistance)[0] == ms[0]
  {
    if |ms| > 1 {
      var prefix := ms[..|ms| - 1];
      KeptFirst(prefix, minDistance);
      assert prefix[0] == ms[0];
    }
  }

  /** No match of `k` lies within `minDistance` of a match before it. */
  predicate Spread(k: seq<Match>, minDistance: real)
  {
    forall i, j :: 0 <= i < j < |k| ==> !Near(k[j], k[i], minDistance)
  }

  lemma SpreadAppend(k: seq<Match>, m: Match, minDistance: real)
    requires Spread(k, minDistance) && !NearAny(m, k, minDistance)
    ensures Spread(k + [m], minDistance)
  {
    var k' := k + [m];
    forall i, j | 0 <= i < j < |k'| ensures !Near(k'[j], k'[i], minDistance) {
      assert k'[i] == k[i];
      if j < |k| {
        assert k'[j] == k[j];
      } else {
        assert !Near(m, k[i], minDistance);
      }
    }
  }

  /** No kept match lies within `minDistance` of a match kept before it. */
  lemma {:induction false} KeptSpread(ms: seq<Match>, minDistance: real)
    ensures Spread(Kept(ms, minDistance), minDistance)
  {
    if ms != [] {
      var earlier := Kept(ms[..|ms| - 1], minDistance);
      var m := ms[|ms| - 1];
      KeptSpread(ms[..|ms| - 1], minDistance);
      if !NearAny(m, earlier, minDistance) {
        SpreadAppend(earlier, m, minDistance);
      }
    }
  }

  /** Every match is either kept or within `minDistance` of a kept match. */
  lemma {:induction false} KeptCovers(ms: seq<Match>, minDistance: real)
    ensures var k := Kept(ms, minDistance);
      forall i :: 0 <= i < |ms| ==> ms[i] in k || NearAny(ms[i], k, minDistance)
  {
    if ms != [] {
      var prefix := ms[..|ms| - 1];
      var earlier := Kept(prefix, minDistance);
      var k := Kept(ms, minDistance);
      KeptCovers(prefix, minDistance);
      forall i | 0 <= i < |ms| ensures ms[i] in k || NearAny(ms[i], k, minDistance) {
        if i < |ms| - 1 {
          assert ms[i] == prefix[i];
          if !(ms[i] in earlier) {
            var j :| 0 <= j < |earlier| && Near(ms[i], earlier[j], minDistance);
            assert k[j] == earlier[j];
          }
        }
      }
    }
  }

  /** The kept matches are drawn from the input, each at most as often as it occurs there. */
  lemma {:induction false} KeptFromInput(ms: seq<Match>, minDistance: real)
    ensures multiset(Kept(ms, minDistance)) <= multiset(ms)
  {
    if ms != [] {
      var prefix := ms[..|ms| - 1];
      KeptFromInput(prefix, minDistance);
      assert ms == prefix + [ms[|ms| - 1]];
    }
  }

  /** The matches of `s` whose confidence is exactly `c`, in order. */
  function WithConfidence(s: seq<Match>, c: real): seq<Match>
  {
    if s == [] then []
    else (if s[0].confidence == c then [s[0]] else []) + WithConfidence(s[1..], c)
  }

  predicate SortedByConfidence(s: seq<Match>)
  {
    forall i, j :: 0 <= i < j < |s| ==> s[i].confidence >= s[j].confidence
  }

  /** Puts `x` in front of the first match of `t` that is not more confident than it. */
  function Insert(x: Match, t: seq<Match>): (r: seq<Match>)
    ensures |r| == |t| + 1
  {
    if t == [] || t[0].confidence <= x.confidence then [x] + t
    else [t[0]] + Insert(x, t[1..])
  }

  /** Insertion adds `x` and keeps every match of `t`. */
  lemma {:induction false} InsertPermutes(x: Match, t: seq<Match>)
    ensures multiset(Insert(x, t)) == multiset([x] + t)
  {
    if !(t == [] || t[0].confidence <= x.confidence) {
      InsertPermutes(x, t[1..]);
      assert t == [t[0]] + t[1..];
    }
  }

  /** A confidence bound that holds of `x` and of all of `t` holds of all of `Insert(x, t)`. */
  lemma {:induction false} InsertBounded(x: Match, t: seq<Match>, b: real)
    requires x.confidence <= b
    requires forall i :: 0 <= i < |t| ==> t[i].confidence <= b
    ensures forall i :: 0 <= i < |Insert(x, t)| ==> Insert(x, t)[i].confidence <= b
  {
    if !(t == [] || t[0].confidence <= x.confidence) {
      InsertBounded(x, t[1..], b);
    }
  }

  /** Inserting into a descending list keeps it descending. */
  lemma {:induction false} InsertSorted(x: Match, t: seq<Match>)
    requires SortedByConfidence(t)
    ensures SortedByConfidence(Insert(x, t))
  {
    if !(t == [] || t[0].confidence <= x.confidence) {
      var rest := t[1..];
      InsertSorted(x, rest);
      InsertBounded(x, rest, t[0].confidence);
      var r := Insert(x, rest);
      var full := Insert(x, t);
      assert full == [t[0]] + r;
      forall i, j | 0 <= i < j < |full| ensures full[i].confidence >= full[j].confidence {
        assert full[j] == r[j - 1];
        if i > 0 {
          assert full[i] == r[i - 1];
        }
      }
    }
  }

  lemma {:induction false} InsertStable(x: Match, t: seq<Match>, c: real)
    requires SortedByConfidence(t)
    ensures WithConfidence(Insert(x, t), c) == WithConfidence([x] + t, c)
  {
    if !(t == [] || t[0].confidence <= x.confidence) {
      InsertStable(x, t[1..], c);
      assert ([x] + t)[1..] == t;
      assert ([x] + t[1..])[1..] == t[1..];
      if x.confidence == c {
        // every element passed over is strictly more confident than x
        assert t[0].confidence != c;
      }
    }
  }

  /**
   * `list.sort(key=confidence, reverse=True)`: descending by confidence and
   * stable, so matches of equal confidence keep their input order.
   */
  function SortByConfidence(s: seq<Match>): (r: seq<Match>)
    ensures |r| == |s|
    ensures SortedByConfidence(r)
    ensures multiset(r) == multiset(s)
  {
    if s == [] then []
    else
      var rest := SortByConfidence(s[1..]);
      InsertSorted(s[0], rest);
      InsertPermutes(s[0], rest);
      assert s == [s[0]] + s[1..];
      Insert(s[0], rest)
  }

  /** Sorting keeps, for every confidence value, the matches with that confidence in input order. */
  lemma {:induction false} SortStable(s: seq<Match>, c: real)
    ensures WithConfidence(SortByConfidence(s), c) == WithConfidence(s, c)
  {
    if s != [] {
      SortStable(s[1..], c);
      InsertStable(s[0], SortByConfidence(s[1..]), c);
    }
  }

  /**
   * `_remove_duplicate_matches`: keep each match that is not near an
   * already kept one (in input order), then sort by confidence, best first.
   */
  method RemoveDuplicateMatches(matches: seq<Match>, minDistance: real) returns (r: seq<Match>)
    ensures r == SortByConfidence(Kept(matches, minDistance))
    ensures matches == [] ==> r == []
    ensures |r| <= |matches| && SortedByConfidence(r)
  {
    if matches == [] {
      return [];
    }
    var unique: seq<Match> := [];
    var i := 0;
    while i < |matches|
      invariant 0 <= i <= |matches|
      invariant unique == Kept(matches[..i], minDistance)
    {
      var m := matches[i];
      var isDuplicate := false;
      var j := 0;
      while j < |unique| && !isDuplicate
        invariant 0 <= j <= |unique|
        invariant isDuplicate <==> exists q :: 0 <= q < j && Near(m, unique[q], minDistance)
      {
        isDuplicate := Near(m, unique[j], minDistance);
        j := j + 1;
      }
      assert matches[..i + 1][..i] == matches[..i] && matches[..i + 1][i] == m;
      if !isDuplicate {
        unique := unique + [m];
      }
      i := i + 1;
    }
    assert matches[..i] == matches;
    r := SortByConfidence(unique);
  }

  const UserTemplatesDir: string := "config/user_templates/"
  const CoreTemplatesDir: string := "Templates/"

  /**
   * `_get_template_path`: the user override if that file exists, else the
   * bundled template if it exists, else None. `fileExists` stands for the
   * file system.
   */
  function TemplatePath(name: string, fileExists: string -> bool): (r: Option<string>)
    ensures r == Some(UserTemplatesDir + name + ".png") <==> fileExists(UserTemplatesDir + name + ".png")
    ensures r == Some(CoreTemplatesDir + name + ".png") <==> !fileExists(UserTemplatesDir + name + ".png") && fileExists(CoreTemplatesDir + name + ".png")
    ensures r.None? <==> !fileExists(UserTemplatesDir + name + ".png") && !fileExists(CoreTemplatesDir + name + ".png")
  {
    var user := UserTemplatesDir + name + ".png";
    var core := CoreTemplatesDir + name + ".png";
    assert user[0] == 'c' && core[0] == 'T';
    if fileExists(user) then Some(user)
    else if fileExists(core) then Some(core)
    else None
  }
}
