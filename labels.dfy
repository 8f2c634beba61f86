/** The label test of the follow loop: a button is acted on exactly when its
    text, with surrounding white space removed and lower-cased, is "follow". */
module Labels {

  /** The code points JavaScript's String.prototype.trim removes: WhiteSpace
      and LineTerminator of ECMAScript (sections 12.2 and 12.3 of ECMA-262). */
  predicate IsWhitespace(c: char) {
    var n := c as int;
    n == 0x09 || n == 0x0A || n == 0x0B || n == 0x0C || n == 0x0D ||
    n == 0x20 || n == 0xA0 || n == 0x1680 || (0x2000 <= n <= 0x200A) ||
    n == 0x2028 || n == 0x2029 || n == 0x202F || n == 0x205F ||
    n == 0x3000 || n == 0xFEFF
  }

  predicate AllWhitespace(s: string) {
    forall k :: 0 <= k < |s| ==> IsWhitespace(s[k])
  }

  /** Neither end of `w` is white space. */
  predicate Trimmed(w: string) {
    w == [] || (!IsWhitespace(w[0]) && !IsWhitespace(w[|w| - 1]))
  }

  /** String.prototype.trim: white space is dropped from both ends until
      neither end is white space. */
  function Trim(s: string): (r: string)
    decreases |s|
  {
    if s == [] then s
    else if IsWhitespace(s[0]) then Trim(s[1..])
    else if IsWhitespace(s[|s| - 1]) then Trim(s[..|s| - 1])
    else s
  }

  /** String.prototype.toLowerCase on one code point, for the ASCII letters. */
  function LowerChar(c: char): char {
    if 'A' <= c <= 'Z' then (c as int + 32) as char else c
  }

  function Lower(s: string): string {
    seq(|s|, k requires 0 <= k < |s| => LowerChar(s[k]))
  }

  /** The test `btn.innerText.trim().toLowerCase() === 'follow'`. */
  predicate IsFollowLabel(text: string) {
    Lower(Trim(text)) == "follow"
  }

  /** "follow" with each letter in either case. */
  predicate IsFollowWord(w: string) {
    |w| == 6 && forall k :: 0 <= k < 6 ==> w[k] == "follow"[k] || w[k] == "FOLLOW"[k]
  }

  /** The result of Trim has no white space at either end. */
  lemma {:induction false} TrimIsTrimmed(s: string)
    ensures Trimmed(Trim(s))
    decreases |s|
  {
    if s != [] {
      if IsWhitespace(s[0]) {
        TrimIsTrimmed(s[1..]);
      } else if IsWhitespace(s[|s| - 1]) {
        TrimIsTrimmed(s[..|s| - 1]);
      }
    }
  }

  /** `r` sits in `s` at index `i`, with only white space before and after. */
  ghost predicate PaddedAt(s: string, i: int, r: string) {
    0 <= i <= |s| - |r| && r == s[i..i + |r|] &&
    AllWhitespace(s[..i]) && AllWhitespace(s[i + |r|..])
  }

  /** Trim removes only white space, and only at the ends: the result sits in
      `s` between a white-space prefix and a white-space suffix. */
  lemma {:induction false} TrimSplits(s: string)
    ensures exists i :: PaddedAt(s, i, Trim(s))
    decreases |s|
  {
    var r := Trim(s);
    if s == [] {
      assert PaddedAt(s, 0, r);
    } else if IsWhitespace(s[0]) {
      var t := s[1..];
      TrimSplits(t);
      var i :| PaddedAt(t, i, r);
      PaddedAtCons(s, i, r);
    } else if IsWhitespace(s[|s| - 1]) {
      var t := s[..|s| - 1];
      TrimSplits(t);
      var i :| PaddedAt(t, i, r);
      PaddedAtSnoc(s, i, r);
    } else {
      assert s[..0] == [] && s[|s|..] == [];
      assert PaddedAt(s, 0, r);
    }
  }

  lemma PaddedAtCons(s: string, i: int, r: string)
    requires s != [] && IsWhitespace(s[0]) && PaddedAt(s[1..], i, r)
    ensures PaddedAt(s, i + 1, r)
  {
    var t := s[1..];
    assert r == s[i + 1..i + 1 + |r|];
    assert s[..i + 1] == [s[0]] + t[..i];
    assert s[i + 1 + |r|..] == t[i + |r|..];
  }

  lemma PaddedAtSnoc(s: string, i: int, r: string)
    requires s != [] && IsWhitespace(s[|s| - 1]) && PaddedAt(s[..|s| - 1], i, r)
    ensures PaddedAt(s, i, r)
  {
    var t := s[..|s| - 1];
    assert r == s[i..i + |r|];
    assert s[..i] == t[..i];
    assert s[i + |r|..] == t[i + |r|..] + [s[|s| - 1]];
  }

  /** Trim is determined by its two properties: a word with no white space at
      its ends, padded with white space on either side, trims to that word. */
  lemma {:induction false} TrimUnique(p: string, w: string, q: string)
    requires AllWhitespace(p) && AllWhitespace(q) && Trimmed(w)
    ensures Trim(p + w + q) == w
    decreases |p| + |q|
  {
    var s := p + w + q;
    if p != [] {
      assert s[0] == p[0];
      assert s[1..] == p[1..] + w + q;
      TrimUnique(p[1..], w, q);
    } else if w == [] && q != [] {
      assert s == q && s[1..] == [] + [] + q[1..];
      TrimUnique([], [], q[1..]);
    } else if q != [] {
      assert s[0] == w[0] && s[|s| - 1] == q[|q| - 1];
      assert s[..|s| - 1] == [] + w + q[..|q| - 1];
      TrimUnique([], w, q[..|q| - 1]);
    } else {
      assert s == w;
    }
  }

  /** Lower-casing gives "follow" exactly for "follow" in any mix of cases. */
  lemma LowerIsFollow(w: string)
    ensures Lower(w) == "follow" <==> IsFollowWord(w)
  {
    if IsFollowWord(w) {
      forall k | 0 <= k < 6 ensures Lower(w)[k] == "follow"[k] {
      }
    }
    if Lower(w) == "follow" {
      forall k | 0 <= k < 6 ensures w[k] == "follow"[k] || w[k] == "FOLLOW"[k] {
        assert LowerChar(w[k]) == "follow"[k];
      }
    }
  }

  /** The label test holds exactly when the trimmed text is "follow" in any
      mix of cases: "Following", "Follow back" or "Requested" do not count. */
  lemma FollowLabelIsFollowWord(text: string)
    ensures IsFollowLabel(text) <==> IsFollowWord(Trim(text))
  {
    LowerIsFollow(Trim(text));
  }

  /** White space around a label never changes the verdict: the test holds of
      `p + w + q` exactly when it holds of the bare word `w`. */
  lemma FollowLabelPadded(p: string, w: string, q: string)
    requires AllWhitespace(p) && AllWhitespace(q) && Trimmed(w)
    ensures IsFollowLabel(p + w + q) <==> IsFollowWord(w)
  {
    TrimUnique(p, w, q);
    FollowLabelIsFollowWord(p + w + q);
  }

  /** Bare and padded "follow", in any case, passes the test. */
  lemma FollowLabelExamples()
    ensures IsFollowLabel("Follow") && IsFollowLabel("follow")
    ensures IsFollowLabel(" FOLLOW\n")
  {
    assert IsFollowLabel("Follow") by {
      assert IsFollowWord("Follow");
      FollowLabelPadded("", "Follow", "");
      assert "" + "Follow" + "" == "Follow";
    }
    assert IsFollowLabel("follow") by {
      assert IsFollowWord("follow");
      FollowLabelPadded("", "follow", "");
      assert "" + "follow" + "" == "follow";
    }
    assert IsFollowLabel(" FOLLOW\n") by {
      assert IsFollowWord("FOLLOW");
      FollowLabelPadded(" ", "FOLLOW", "\n");
      assert " " + "FOLLOW" + "\n" == " FOLLOW\n";
    }
  }

  /** The other buttons of a profile list do not pass the test. */
  lemma OtherLabelExamples()
    ensures !IsFollowLabel("Following") && !IsFollowLabel("Follow back")
    ensures !IsFollowLabel("Requested") && !IsFollowLabel("")
  {
    assert !IsFollowLabel("Following") by {
      FollowLabelPadded("", "Following", "");
      assert "" + "Following" + "" == "Following";
    }
    assert !IsFollowLabel("Follow back") by {
      FollowLabelPadded("", "Follow back", "");
      assert "" + "Follow back" + "" == "Follow back";
    }
    assert !IsFollowLabel("Requested") by {
      FollowLabelPadded("", "Requested", "");
      assert "" + "Requested" + "" == "Requested";
    }
    FollowLabelPadded("", "", "");
  }
}
