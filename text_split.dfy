/**
 * Keyword splitting (app.py:21-36): Python's `str.split(',')`, the inverse
 * `','.join`, and the greedy packer `split_text` that groups comma-separated
 * tags into segments for the per-value length limit of the keyword field.
 */
module TextSplit {

  /** `s.split(',')`: the comma-separated tokens of `s`, in order; there is always at least one. */
  function Split(s: string): (tokens: seq<string>)
    ensures |tokens| >= 1
    decreases |s|
  {
    if s == [] then [""]
    else
      var init := Split(s[..|s| - 1]);
      if s[|s| - 1] == ',' then init + [""]
      else init[..|init| - 1] + [init[|init| - 1] + [s[|s| - 1]]]
  }

  /** `','.join(parts)`. */
  function Join(parts: seq<string>): string
    decreases |parts|
  {
    if |parts| == 0 then ""
    else if |parts| == 1 then parts[0]
    else Join(parts[..|parts| - 1]) + "," + parts[|parts| - 1]
  }

  predicate CommaFree(parts: seq<string>)
  {
    forall k :: 0 <= k < |parts| ==> ',' !in parts[k]
  }

  /** The first comma-separated token of `s`. */
  function FirstToken(s: string): string
  {
    Split(s)[0]
  }

  lemma {:induction false} SplitIsCommaFree(s: string)
    ensures CommaFree(Split(s))
    decreases |s|
  {
    if s != [] {
      SplitIsCommaFree(s[..|s| - 1]);
    }
  }

  /** Splitting and joining again gives back the text. */
  lemma {:induction false} JoinSplit(s: string)
    ensures Join(Split(s)) == s
    decreases |s|
  {
    if s != [] {
      var prefix, c := s[..|s| - 1], s[|s| - 1];
      var init := Split(prefix);
      JoinSplit(prefix);
      assert s == prefix + [c];
      if c == ',' {
        assert (init + [""])[..|init|] == init;
      } else {
        var n := |init|;
        var tokens := init[..n - 1] + [init[n - 1] + [c]];
        if n > 1 {
          assert tokens[..n - 1] == init[..n - 1];
        }
      }
    }
  }

  /** A comma-free text is a single token. */
  lemma {:induction false} SplitSingle(t: string)
    requires ',' !in t
    ensures Split(t) == [t]
    decreases |t|
  {
    if t != [] {
      SplitSingle(t[..|t| - 1]);
      assert t == t[..|t| - 1] + [t[|t| - 1]];
    }
  }

  /** A comma followed by a comma-free tail adds exactly one token. */
  lemma {:induction false} SplitAfterComma(a: string, t: string)
    requires ',' !in t
    ensures Split(a + "," + t) == Split(a) + [t]
    decreases |t|
  {
    var s := a + "," + t;
    if t == [] {
      assert s[..|s| - 1] == a;
    } else {
      var t' := t[..|t| - 1];
      assert s[..|s| - 1] == a + "," + t';
      SplitAfterComma(a, t');
      assert t == t' + [t[|t| - 1]];
    }
  }

  /** Joining comma-free tokens and splitting again gives back the tokens. */
  lemma {:induction false} SplitJoin(parts: seq<string>)
    requires |parts| >= 1 && CommaFree(parts)
    ensures Split(Join(parts)) == parts
    decreases |parts|
  {
    if |parts| == 1 {
      SplitSingle(parts[0]);
    } else {
      var init := parts[..|parts| - 1];
      SplitJoin(init);
      SplitAfterComma(Join(init), parts[|parts| - 1]);
      assert parts == init + [parts[|parts| - 1]];
    }
  }

  /** The state of the loop of `split_text`: the closed segments and the segment being filled. */
  datatype Acc = Acc(done: seq<string>, current: string)

  /** One iteration of the loop at app.py:25-33. */
  function Step(acc: Acc, part: string, maxLength: int): Acc
  {
    if |acc.current| + |part| + 1 <= maxLength then
      Acc(acc.done, if acc.current != "" then acc.current + "," + part else part)
    else
      Acc(acc.done + [acc.current], part)
  }

  /** The loop state after the tokens `parts` have been consumed. */
  function Pack(parts: seq<string>, maxLength: int): Acc
    decreases |parts|
  {
    if parts == [] then Acc([], "")
    else Step(Pack(parts[..|parts| - 1], maxLength), parts[|parts| - 1], maxLength)
  }

  /** The final `if current: result.append(current)` (app.py:34-35). */
  function Flush(acc: Acc): seq<string>
  {
    if acc.current != "" then acc.done + [acc.current] else acc.done
  }

  /** What `split_text(text, maxLength)` returns. */
  function Segments(text: string, maxLength: int): seq<string>
  {
    Flush(Pack(Split(text), maxLength))
  }

  /** `split_text` (app.py:21-36), with the loop and the mutable accumulators of the source. */
  method SplitText(text: string, maxLength: int) returns (result: seq<string>)
    ensures result == Segments(text, maxLength)
  {
    var parts := Split(text);
    result := [];
    var current := "";
    for i := 0 to |parts|
      invariant Pack(parts[..i], maxLength) == Acc(result, current)
    {
      assert parts[..i + 1][..i] == parts[..i];
      var part := parts[i];
      if |current| + |part| + 1 <= maxLength {
        if current != "" {
          current := current + "," + part;
        } else {
          current := part;
        }
      } else {
        result := result + [current];
        current := part;
      }
    }
    assert parts[..|parts|] == parts;
    if current != "" {
      result := result + [current];
    }
  }

  // ----- Shape: oversized segments are single tokens -----

  /** A segment either fits the limit, or is one comma-free token of `parts` (or the empty segment). */
  predicate FitsOrSingle(seg: string, parts: seq<string>, maxLength: int)
  {
    |seg| <= maxLength || (',' !in seg && (seg == "" || seg in parts))
  }

  lemma {:induction false} PackShape(parts: seq<string>, maxLength: int)
    requires CommaFree(parts)
    ensures FitsOrSingle(Pack(parts, maxLength).current, parts, maxLength)
    ensures forall seg :: seg in Pack(parts, maxLength).done ==> FitsOrSingle(seg, parts, maxLength)
    decreases |parts|
  {
    if parts != [] {
      var init := parts[..|parts| - 1];
      PackShape(init, maxLength);
      assert parts == init + [parts[|parts| - 1]];
    }
  }

  /**
   * Every segment holding two or more tokens fits the limit; a segment longer
   * than the limit is a single token of the input, placed alone and not truncated
   * (or the empty segment, which only a negative limit makes oversized).
   */
  lemma SegmentsBounded(text: string, maxLength: int)
    ensures forall seg :: seg in Segments(text, maxLength) && ',' in seg ==> |seg| <= maxLength
    ensures forall seg :: seg in Segments(text, maxLength) && |seg| > maxLength ==>
      ',' !in seg && (seg == "" || seg in Split(text))
  {
    SplitIsCommaFree(text);
    PackShape(Split(text), maxLength);
  }

  // ----- Greedy closing -----

  /** Each segment was closed only because the first token of the next one did not fit after it. */
  predicate ClosedGreedily(segs: seq<string>, maxLength: int)
  {
    forall k :: 0 <= k < |segs| - 1 ==> |segs[k]| + 1 + |FirstToken(segs[k + 1])| > maxLength
  }

  lemma FirstTokenOfToken(t: string)
    requires ',' !in t
    ensures FirstToken(t) == t
  {
    SplitSingle(t);
  }

  lemma FirstTokenAfterComma(a: string, t: string)
    requires ',' !in t
    ensures FirstToken(a + "," + t) == FirstToken(a)
  {
    SplitAfterComma(a, t);
  }

  lemma {:induction false} PackGreedy(parts: seq<string>, maxLength: int)
    requires CommaFree(parts)
    ensures ClosedGreedily(Pack(parts, maxLength).done, maxLength)
    ensures var acc := Pack(parts, maxLength);
      |acc.done| > 0 ==> |acc.done[|acc.done| - 1]| + 1 + |FirstToken(acc.current)| > maxLength
    decreases |parts|
  {
    if parts != [] {
      var init, part := parts[..|parts| - 1], parts[|parts| - 1];
      PackGreedy(init, maxLength);
      var prev := Pack(init, maxLength);
      FirstTokenOfToken(part);
      if |prev.current| + |part| + 1 <= maxLength {
        if prev.current != "" {
          FirstTokenAfterComma(prev.current, part);
        } else {
          assert FirstToken(prev.current) == "";
        }
      } else {
        var done := prev.done + [prev.current];
        forall k | 0 <= k < |done| - 1
          ensures |done[k]| + 1 + |FirstToken(done[k + 1])| > maxLength
        {
          if k < |prev.done| - 1 {
            assert done[k] == prev.done[k] && done[k + 1] == prev.done[k + 1];
          }
        }
      }
    }
  }

  /** `split_text` is greedy: no segment could have taken the first token of the next one. */
  lemma SegmentsGreedy(text: string, maxLength: int)
    ensures ClosedGreedily(Segments(text, maxLength), maxLength)
  {
    SplitIsCommaFree(text);
    PackGreedy(Split(text), maxLength);
    var acc := Pack(Split(text), maxLength);
    if acc.current != "" {
      var segs := acc.done + [acc.current];
      forall k | 0 <= k < |segs| - 1
        ensures |segs[k]| + 1 + |FirstToken(segs[k + 1])| > maxLength
      {
        if k < |acc.done| - 1 {
          assert segs[k] == acc.done[k] && segs[k + 1] == acc.done[k + 1];
        }
      }
    }
  }

  // ----- Round trip for well-formed tag lists -----

  /** Every token is non-empty and leaves room for a separator. */
  predicate ShortTokens(parts: seq<string>, maxLength: int)
  {
    forall k :: 0 <= k < |parts| ==> parts[k] != "" && |parts[k]| < maxLength
  }

  lemma JoinExtendLast(xs: seq<string>, a: string, b: string)
    ensures Join(xs + [a + "," + b]) == Join(xs + [a]) + "," + b
  {
    if xs != [] {
      assert (xs + [a + "," + b])[..|xs|] == xs;
      assert (xs + [a])[..|xs|] == xs;
    }
  }

  lemma {:induction false} PackKeepsText(parts: seq<string>, maxLength: int)
    requires |parts| >= 1 && ShortTokens(parts, maxLength)
    ensures Pack(parts, maxLength).current != ""
    ensures "" !in Pack(parts, maxLength).done
    ensures Join(Pack(parts, maxLength).done + [Pack(parts, maxLength).current]) == Join(parts)
    decreases |parts|
  {
    var init, part := parts[..|parts| - 1], parts[|parts| - 1];
    if |parts| == 1 {
      assert init == [];
    } else {
      PackKeepsText(init, maxLength);
      var prev := Pack(init, maxLength);
      if |prev.current| + |part| + 1 <= maxLength {
        JoinExtendLast(prev.done, prev.current, part);
      } else {
        var done := prev.done + [prev.current];
        assert (done + [part])[..|done|] == done;
      }
    }
  }

  /**
   * When every tag is non-empty and shorter than the limit, no segment is
   * empty and joining the segments with ',' gives back the tag text exactly.
   */
  lemma SegmentsRoundTrip(text: string, maxLength: int)
    requires ShortTokens(Split(text), maxLength)
    ensures "" !in Segments(text, maxLength)
    ensures Join(Segments(text, maxLength)) == text
  {
    PackKeepsText(Split(text), maxLength);
    JoinSplit(text);
  }

  // ----- Edge cases -----

  lemma {:induction false} PackLeadingEmpty(parts: seq<string>, maxLength: int)
    requires |parts| >= 1 && |parts[0]| >= maxLength
    ensures |Pack(parts, maxLength).done| >= 1 && Pack(parts, maxLength).done[0] == ""
    decreases |parts|
  {
    var init := parts[..|parts| - 1];
    if |parts| == 1 {
      assert init == [];
    } else {
      assert init[0] == parts[0];
      PackLeadingEmpty(init, maxLength);
    }
  }

  /** A first tag that does not leave room for a separator makes the result start with an empty segment. */
  lemma SegmentsLeadingEmpty(text: string, maxLength: int)
    requires |Split(text)[0]| >= maxLength
    ensures |Segments(text, maxLength)| >= 1 && Segments(text, maxLength)[0] == ""
  {
    PackLeadingEmpty(Split(text), maxLength);
  }

  /** The empty tag text gives no segment for a positive limit, and one empty segment otherwise. */
  lemma SegmentsOfEmpty(maxLength: int)
    ensures Segments("", maxLength) == if maxLength >= 1 then [] else [""]
  {
    assert Split("") == [""];
    assert [""][..0] == [];
  }
}
