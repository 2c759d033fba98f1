/**
 * The name under which an uploaded image is stored: the decimal clock
 * reading in milliseconds, a dash, then the original file name with every
 * run of whitespace replaced by a single dash. The clock reading is a parameter.
 */
module Upload {
  import opened Wrappers
  import opened Seqs
  import opened Strings

  /** The global whitespace-run replacement: every maximal run of whitespace becomes one `'-'`. */
  function CollapseWhitespace(name: string): (r: string)
    ensures forall i :: 0 <= i < |r| ==> !IsSpace(r[i])
    decreases |name|
  {
    if name == [] then []
    else if IsSpace(name[0]) then "-" + CollapseWhitespace(TrimStart(name))
    else [name[0]] + CollapseWhitespace(name[1..])
  }

  /**
   * The stored file name for an upload at clock reading `now` (milliseconds):
   * digits, one dash, then the transformed name, with no whitespace anywhere.
   */
  function StoredFileName(now: nat, originalName: string): (r: string)
    ensures var k := |Decimal(now)|;
      && k < |r| && r[..k] == Decimal(now) && r[k] == '-'
      && (forall i :: 0 <= i < k ==> IsDigit(r[i]))
      && r[k + 1..] == CollapseWhitespace(originalName)
    ensures forall i :: 0 <= i < |r| ==> !IsSpace(r[i])
  {
    var d, rest := Decimal(now), CollapseWhitespace(originalName);
    var r := d + "-" + rest;
    assert forall i :: 0 <= i < |d| ==> r[i] == d[i];
    assert r[|d| + 1..] == rest;
    r
  }

  predicate IsDash(c: char) {
    c == '-'
  }

  predicate IsNotDash(c: char) {
    c != '-'
  }

  /** A character that is neither whitespace nor a dash. */
  predicate IsPlain(c: char) {
    !IsSpace(c) && c != '-'
  }

  /** A name without whitespace is stored as it is. */
  lemma {:induction false} NoWhitespaceUnchanged(name: string)
    requires forall i :: 0 <= i < |name| ==> !IsSpace(name[i])
    ensures CollapseWhitespace(name) == name
  {
    if name != [] {
      NoWhitespaceUnchanged(name[1..]);
    }
  }

  /** Trimming the start of a blank run followed by a non-blank rest leaves the rest. */
  lemma {:induction false} TrimStartOfBlankRun(run: string, rest: string)
    requires IsBlank(run)
    requires rest == [] || !IsSpace(rest[0])
    ensures TrimStart(run + rest) == rest
  {
    if run == [] {
      assert run + rest == rest;
    } else {
      assert (run + rest)[1..] == run[1..] + rest;
      TrimStartOfBlankRun(run[1..], rest);
    }
  }

  /**
   * A word, then a maximal whitespace run, then the rest: the word is kept,
   * the run becomes exactly one `'-'`, and the rest is transformed alone.
   */
  lemma {:induction false} RunBecomesOneDash(word: string, run: string, rest: string)
    requires forall i :: 0 <= i < |word| ==> !IsSpace(word[i])
    requires run != [] && IsBlank(run)
    requires rest == [] || !IsSpace(rest[0])
    ensures CollapseWhitespace(word + run + rest) == word + "-" + CollapseWhitespace(rest)
  {
    if word == [] {
      assert word + run + rest == run + rest;
      TrimStartOfBlankRun(run, rest);
    } else {
      assert (word + run + rest)[1..] == word[1..] + run + rest;
      RunBecomesOneDash(word[1..], run, rest);
    }
  }

  /** Apart from the dashes, the stored name holds the original's non-blank characters in order. */
  lemma {:induction false} KeepsCharactersInOrder(name: string)
    ensures Filter(CollapseWhitespace(name), IsNotDash) == Filter(name, IsPlain)
    decreases |name|
  {
    if name != [] {
      if IsSpace(name[0]) {
        var rest := TrimStart(name);
        var run := name[..|name| - |rest|];
        KeepsCharactersInOrder(rest);
        assert Filter(name, IsPlain) == Filter(rest, IsPlain) by {
          assert name == run + rest;
          FilterConcat(run, rest, IsPlain);
          FilterKeepsNone(run, IsPlain);
        }
        assert Filter(CollapseWhitespace(name), IsNotDash) == Filter(CollapseWhitespace(rest), IsNotDash) by {
          assert CollapseWhitespace(name) == "-" + CollapseWhitespace(rest);
          FilterConcat("-", CollapseWhitespace(rest), IsNotDash);
        }
      } else {
        var tail := name[1..];
        KeepsCharactersInOrder(tail);
        assert CollapseWhitespace(name) == [name[0]] + CollapseWhitespace(tail);
        assert name == [name[0]] + tail;
        FilterConcat([name[0]], tail, IsPlain);
        FilterConcat([name[0]], CollapseWhitespace(tail), IsNotDash);
      }
    }
  }

  /**
   * The stored name reads back: its first `'-'` ends the decimal clock
   * reading, and everything after it is the transformed original name.
   */
  lemma StoredFileNameReadsBack(now: nat, originalName: string)
    ensures var f := StoredFileName(now, originalName);
      var k := |Decimal(now)|;
      && FirstIndex(f, IsDash) == Some(k)
      && (forall i :: 0 <= i < k ==> IsDigit(f[i]))
      && DecimalValue(f[..k]) == now
      && f[k + 1..] == CollapseWhitespace(originalName)
  {
    var f := StoredFileName(now, originalName);
    var k := |Decimal(now)|;
    assert f[..k] == Decimal(now);
    DecimalRoundTrip(now);
    var r := FirstIndex(f, IsDash);
    assert IsDash(f[k]);
    assert r.Some? && r.value <= k;
  }
}
