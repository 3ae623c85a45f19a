/** Decoding of one text frame of the coefficient feed: the frame is split on
    commas (Python's str.split(',')) and every piece is converted with float().
    The conversion of one token is a library call and enters the model as the
    parameter `toFloat`; a token it rejects is None. */
module Frame {
  import opened Wrappers

  /** The separator between two values of a frame. */
  const Delimiter: char := ','

  /** The pieces of `s` between occurrences of `sep`, as str.split(sep) gives
      them: empty pieces are kept, and the empty string gives one empty piece. */
  function Split(s: string, sep: char): (r: seq<string>)
    ensures |r| >= 1
    decreases |s|
  {
    if |s| == 0 then [""]
    else
      var rest := Split(s[1..], sep);
      if s[0] == sep then [""] + rest
      else [[s[0]] + rest[0]] + rest[1..]
  }

  /** The inverse of Split: the pieces glued together with `sep` between them. */
  function Join(parts: seq<string>, sep: char): string
    requires |parts| >= 1
    decreases |parts|
  {
    if |parts| == 1 then parts[0] else parts[0] + [sep] + Join(parts[1..], sep)
  }

  /** The number of occurrences of `c` in `s`. */
  function Occurrences(s: string, c: char): nat
    decreases |s|
  {
    if |s| == 0 then 0 else (if s[0] == c then 1 else 0) + Occurrences(s[1..], c)
  }

  /** No piece returned by Split contains the separator. */
  lemma {:induction false} SplitPiecesHaveNoSeparator(s: string, sep: char)
    ensures forall i :: 0 <= i < |Split(s, sep)| ==> sep !in Split(s, sep)[i]
    decreases |s|
  {
    if |s| > 0 {
      SplitPiecesHaveNoSeparator(s[1..], sep);
      var rest := Split(s[1..], sep);
      if s[0] != sep {
        assert sep !in rest[0];
        assert sep !in [s[0]] + rest[0];
      }
    }
  }

  /** Splitting and joining again gives back the frame. */
  lemma {:induction false} JoinSplit(s: string, sep: char)
    ensures Join(Split(s, sep), sep) == s
    decreases |s|
  {
    if |s| > 0 {
      JoinSplit(s[1..], sep);
      var rest := Split(s[1..], sep);
      if s[0] == sep {
        assert ([""] + rest)[1..] == rest;
        assert s == [sep] + s[1..];
      } else {
        var r := [[s[0]] + rest[0]] + rest[1..];
        if |rest| == 1 {
          assert s == [s[0]] + s[1..];
        } else {
          assert r[1..] == rest[1..];
          assert Join(rest, sep) == rest[0] + [sep] + Join(rest[1..], sep);
          assert s == [s[0]] + s[1..];
        }
      }
    }
  }

  /** Joining pieces that contain no separator and splitting again gives back
      the pieces: Split is injective on frames built from separator-free tokens. */
  lemma {:induction false} SplitJoin(parts: seq<string>, sep: char)
    requires |parts| >= 1
    requires forall i :: 0 <= i < |parts| ==> sep !in parts[i]
    ensures Split(Join(parts, sep), sep) == parts
    decreases |parts|, |parts[0]|
  {
    var p := parts[0];
    if |p| == 0 {
      if |parts| > 1 {
        SplitJoin(parts[1..], sep);
        var j := Join(parts, sep);
        assert j == [sep] + Join(parts[1..], sep);
        assert j[1..] == Join(parts[1..], sep);
        assert parts == [""] + parts[1..];
      }
    } else {
      assert p[0] in p;
      var tail := [p[1..]] + parts[1..];
      forall i | 0 <= i < |tail| ensures sep !in tail[i] {
        if i == 0 {
          forall k | 0 <= k < |p[1..]| ensures p[1..][k] != sep {
            assert p[1..][k] == p[k + 1];
          }
        } else {
          assert tail[i] == parts[i];
        }
      }
      SplitJoin(tail, sep);
      var j := Join(parts, sep);
      assert Join(tail, sep) == j[1..] by {
        if |parts| == 1 {
        } else {
          assert tail[1..] == parts[1..];
        }
      }
      assert j[0] == p[0];
      assert [p[0]] + p[1..] == p;
      assert parts == [p] + parts[1..];
    }
  }

  /** A frame with n separators splits into exactly n + 1 tokens. */
  lemma {:induction false} SplitCount(s: string, sep: char)
    ensures |Split(s, sep)| == Occurrences(s, sep) + 1
    decreases |s|
  {
    if |s| > 0 {
      SplitCount(s[1..], sep);
    }
  }

  /** A frame that ends in the separator has an empty last token. */
  lemma {:induction false} TrailingSeparatorGivesEmptyToken(s: string, sep: char)
    requires |s| > 0 && s[|s| - 1] == sep
    ensures Split(s, sep)[|Split(s, sep)| - 1] == ""
    decreases |s|
  {
    if |s| > 1 {
      assert s[1..][|s[1..]| - 1] == sep;
      TrailingSeparatorGivesEmptyToken(s[1..], sep);
    }
  }

  /** The list comprehension [float(x) for x in tokens]: a value for every token,
      or None as soon as one token does not convert. */
  function ParseAll(tokens: seq<string>, toFloat: string -> Option<real>): (r: Option<seq<real>>)
    ensures r.Some? <==> forall i :: 0 <= i < |tokens| ==> toFloat(tokens[i]).Some?
    ensures r.Some? ==> |r.value| == |tokens|
    ensures r.Some? ==> forall i :: 0 <= i < |tokens| ==> r.value[i] == toFloat(tokens[i]).value
    decreases |tokens|
  {
    if |tokens| == 0 then Some([])
    else
      match toFloat(tokens[0])
      case None => None
      case Some(x) =>
        match ParseAll(tokens[1..], toFloat)
        case None => None
        case Some(xs) => Some([x] + xs)
  }

  /** The coefficients carried by the latest frame; None when no frame has been
      received yet (the attribute is unset) or when a token does not convert. */
  function Decode(rawData: Option<string>, toFloat: string -> Option<real>): (r: Option<seq<real>>)
    ensures r.Some? <==> (rawData.Some? &&
      forall i :: 0 <= i < |Split(rawData.value, Delimiter)| ==> toFloat(Split(rawData.value, Delimiter)[i]).Some?)
    ensures r.Some? ==> |r.value| == |Split(rawData.value, Delimiter)| == Occurrences(rawData.value, Delimiter) + 1
    ensures r.Some? ==> forall i :: 0 <= i < |r.value| ==> r.value[i] == toFloat(Split(rawData.value, Delimiter)[i]).value
  {
    if rawData.None? then None
    else
      SplitCount(rawData.value, Delimiter);
      ParseAll(Split(rawData.value, Delimiter), toFloat)
  }

  /** A frame with a trailing comma never decodes when float('') fails. */
  lemma TrailingCommaFailsDecode(s: string, toFloat: string -> Option<real>)
    requires toFloat("") == None
    requires |s| > 0 && s[|s| - 1] == Delimiter
    ensures Decode(Some(s), toFloat) == None
  {
    TrailingSeparatorGivesEmptyToken(s, Delimiter);
  }

  /** A frame with fewer than 25 commas decodes (if at all) to fewer than 26 values. */
  lemma ShortFrameDecodesShort(s: string, toFloat: string -> Option<real>)
    requires Occurrences(s, Delimiter) < 25
    requires Decode(Some(s), toFloat).Some?
    ensures |Decode(Some(s), toFloat).value| < 26
  {
  }
}
