/** The pure parts of the 기업마당 (bizinfo) listing client: HTML stripping,
    application-period formatting, construction of the startup-fund query,
    and the checks applied to the credential and to the upstream response.
    The HTTP call itself is a parameter. */
module BizinfoApi {
  import opened Wrappers
  import opened Text

  // ---------------------------------------------------------------- stripHtml

  const NBSP: string := "&nbsp;"

  /** No '<' is followed, anywhere later, by a '>': nothing tag-shaped is left. */
  predicate NoTagLeft(s: string) {
    forall i, j :: 0 <= i < j < |s| && s[i] == '<' ==> s[j] != '>'
  }

  /** The entity "&nbsp;" occurs nowhere. */
  predicate NoNbsp(s: string) {
    forall i :: 0 <= i <= |s| ==> !(NBSP <= s[i..])
  }

  /** No two adjacent white-space characters. */
  predicate NoDoubleSpace(s: string) {
    forall i :: 0 <= i < |s| - 1 ==> !(IsSpace(s[i]) && IsSpace(s[i + 1]))
  }

  /** Every white-space character is a plain space. */
  predicate OnlyPlainSpaces(s: string) {
    forall i :: 0 <= i < |s| && IsSpace(s[i]) ==> s[i] == ' '
  }

  /** A character in front of a string leaves no tag shape exactly when the
      string leaves none and, if the character is '<', has no '>' at all. */
  lemma NoTagLeftCons(c: char, t: string)
    ensures NoTagLeft([c] + t) <==> NoTagLeft(t) && (c == '<' ==> '>' !in t)
  {
    var s := [c] + t;
    if NoTagLeft(s) {
      forall a, b | 0 <= a < b < |t| && t[a] == '<'
        ensures t[b] != '>'
      {
        assert s[a + 1] == t[a] && s[b + 1] == t[b];
      }
      if c == '<' {
        forall b | 0 <= b < |t|
          ensures t[b] != '>'
        {
          assert s[0] == '<' && s[b + 1] == t[b];
          assert 0 < b + 1 < |s|;
        }
      }
    }
  }

  /** Every slice of a string keeps the four clean-text properties. */
  lemma SliceKeeps(s: string, i: int, j: int)
    requires 0 <= i <= j <= |s|
    ensures NoTagLeft(s) ==> NoTagLeft(s[i..j])
    ensures NoDoubleSpace(s) ==> NoDoubleSpace(s[i..j])
    ensures OnlyPlainSpaces(s) ==> OnlyPlainSpaces(s[i..j])
    ensures NoNbsp(s) ==> NoNbsp(s[i..j])
  {
    var t := s[i..j];
    if NoTagLeft(s) {
      forall a, b | 0 <= a < b < |t| && t[a] == '<'
        ensures t[b] != '>'
      {
        assert t[a] == s[i + a] && t[b] == s[i + b];
      }
    }
    if NoDoubleSpace(s) {
      forall a | 0 <= a < |t| - 1
        ensures !(IsSpace(t[a]) && IsSpace(t[a + 1]))
      {
        assert t[a] == s[i + a] && t[a + 1] == s[i + a + 1];
      }
    }
    if NoNbsp(s) {
      forall a | 0 <= a <= |t|
        ensures !(NBSP <= t[a..])
      {
        assert t[a..] <= s[i + a..];
      }
    }
  }

  /** The part of `s` after its first `c`. */
  function After(s: string, c: char): (r: string)
    requires c in s
    ensures |r| < |s| && r == s[|s| - |r|..]
  {
    if s[0] == c then s[1..] else After(s[1..], c)
  }

  /** `.replace(/<[^>]*>/g, "")`: scanning left to right, a '<' that has a
      later '>' is removed together with everything up to and including the
      first such '>'; every other character is kept. */
  function RemoveTags(s: string): (r: string)
    ensures NoTagLeft(r)
    ensures forall c :: c in r ==> c in s
    ensures '<' !in s ==> r == s
  {
    if |s| == 0 then ""
    else if s[0] == '<' && '>' in s[1..] then
      var rest := After(s[1..], '>');
      assert forall c :: c in rest ==> c in s;
      RemoveTags(rest)
    else
      var rest := RemoveTags(s[1..]);
      assert forall c :: c in rest ==> c in s[1..];
      [s[0]] + rest
  }

  /** The part after the first `c` is what follows a `c`-free prefix and its `c`. */
  lemma {:induction false} AfterFirst(t: string, c: char, q: string)
    requires c !in t
    ensures After(t + [c] + q, c) == q
  {
    if |t| > 0 {
      assert (t + [c] + q)[1..] == t[1..] + [c] + q;
      AfterFirst(t[1..], c, q);
    } else {
      assert t + [c] + q == [c] + q;
    }
  }

  /** Text without '<' in front of the rest passes through tag removal unchanged. */
  lemma {:induction false} RemoveTagsKeepsText(p: string, q: string)
    requires '<' !in p
    ensures RemoveTags(p + q) == p + RemoveTags(q)
  {
    if |p| > 0 {
      var s := p + q;
      assert s[0] == p[0] && s[1..] == p[1..] + q;
      RemoveTagsKeepsText(p[1..], q);
      assert p == [p[0]] + p[1..];
    } else {
      assert p + q == q;
    }
  }

  /** A tag, from '<' to the first '>' after it, is removed whole. */
  lemma RemoveTagsDropsTag(t: string, q: string)
    requires '>' !in t
    ensures RemoveTags("<" + t + ">" + q) == RemoveTags(q)
  {
    var s := "<" + t + ">" + q;
    assert s[1..] == t + ['>'] + q;
    AfterFirst(t, '>', q);
  }

  /** Text without any '>' has no tag, so every '<' in it is kept. */
  lemma {:induction false} RemoveTagsUnclosed(s: string)
    requires '>' !in s
    ensures RemoveTags(s) == s
  {
    if |s| > 0 {
      RemoveTagsUnclosed(s[1..]);
      assert s == [s[0]] + s[1..];
    }
  }

  /** `.replace(/&nbsp;/g, " ")`. */
  function ReplaceNbsp(s: string): (r: string)
    ensures forall c :: c in r ==> c in s || c == ' '
    ensures NoTagLeft(s) ==> NoTagLeft(r)
    ensures '&' !in s ==> r == s
  {
    if NBSP <= s then
      SliceKeeps(s, |NBSP|, |s|);
      " " + ReplaceNbsp(s[|NBSP|..])
    else if |s| == 0 then ""
    else
      SliceKeeps(s, 1, |s|);
      NoTagLeftCons(s[0], s[1..]);
      NoTagLeftCons(s[0], ReplaceNbsp(s[1..]));
      [s[0]] + ReplaceNbsp(s[1..])
  }

  /** Text without '&' in front of the rest passes through the replacement unchanged. */
  lemma {:induction false} ReplaceNbspKeepsText(p: string, q: string)
    requires '&' !in p
    ensures ReplaceNbsp(p + q) == p + ReplaceNbsp(q)
  {
    if |p| > 0 {
      var s := p + q;
      assert s[0] == p[0] && s[1..] == p[1..] + q;
      assert !(NBSP <= s) by {
        assert NBSP[0] == '&' && p[0] in p;
      }
      ReplaceNbspKeepsText(p[1..], q);
      assert p == [p[0]] + p[1..];
    } else {
      assert p + q == q;
    }
  }

  /** Each "&nbsp;" becomes exactly one space. */
  lemma ReplaceNbspEntity(q: string)
    ensures ReplaceNbsp(NBSP + q) == " " + ReplaceNbsp(q)
  {
    assert NBSP <= NBSP + q;
    assert (NBSP + q)[|NBSP|..] == q;
  }

  /** An '&' that does not start "&nbsp;" is kept. */
  lemma ReplaceNbspLoneAmpersand(q: string)
    requires !(NBSP <= "&" + q)
    ensures ReplaceNbsp("&" + q) == "&" + ReplaceNbsp(q)
  {
    assert ("&" + q)[1..] == q;
  }

  /** A space-free prefix of the replaced text was already a prefix of the input. */
  lemma {:induction false} ReplacePrefix(s: string, p: string)
    ensures ' ' !in p && p <= ReplaceNbsp(s) ==> p <= s
    decreases |s|
  {
    if |p| > 0 && NBSP <= s {
      assert ReplaceNbsp(s)[0] == ' ';
      assert p[0] in p;
    } else if |p| > 0 && |s| > 0 {
      ReplacePrefix(s[1..], p[1..]);
    }
  }

  /** Replacing every "&nbsp;" leaves none behind, even ones that the
      replacement could have glued together. */
  lemma {:induction false} ReplaceLeavesNoNbsp(s: string)
    ensures NoNbsp(ReplaceNbsp(s))
    decreases |s|
  {
    var r := ReplaceNbsp(s);
    if NBSP <= s {
      ReplaceLeavesNoNbsp(s[|NBSP|..]);
      var rest := ReplaceNbsp(s[|NBSP|..]);
      assert r == " " + rest;
      forall i | 1 <= i <= |r|
        ensures !(NBSP <= r[i..])
      {
        assert r[i..] == rest[i - 1..];
      }
    } else if |s| > 0 {
      ReplaceLeavesNoNbsp(s[1..]);
      var rest := ReplaceNbsp(s[1..]);
      assert r == [s[0]] + rest;
      ReplacePrefix(s[1..], NBSP[1..]);
      forall i | 1 <= i <= |r|
        ensures !(NBSP <= r[i..])
      {
        assert r[i..] == rest[i - 1..];
      }
      assert ' ' !in NBSP[1..] && NBSP == "&" + NBSP[1..];
      assert r[0..] == r;
    }
  }

  /** The maximal prefix of white space dropped. */
  function SkipSpaces(s: string): (r: string)
    ensures |r| <= |s| && r == s[|s| - |r|..]
    ensures |s| > 0 && IsSpace(s[0]) ==> |r| < |s|
    ensures |r| > 0 ==> !IsSpace(r[0])
  {
    if |s| > 0 && IsSpace(s[0]) then SkipSpaces(s[1..]) else s
  }

  /** `.replace(/\s+/g, " ")`: every maximal run of white space becomes one space. */
  function CollapseSpaces(s: string): (r: string)
    ensures forall c :: c in r ==> c in s || c == ' '
    ensures |r| > 0 <==> |s| > 0
    ensures |r| > 0 ==> (IsSpace(r[0]) <==> IsSpace(s[0]))
    ensures NoDoubleSpace(r) && OnlyPlainSpaces(r)
    ensures (forall k :: 0 <= k < |s| ==> !IsSpace(s[k])) ==> r == s
    decreases |s|
  {
    if |s| == 0 then ""
    else if IsSpace(s[0]) then
      var t := SkipSpaces(s);
      var rest := CollapseSpaces(t);
      assert forall c :: c in t ==> c in s;
      " " + rest
    else
      [s[0]] + CollapseSpaces(s[1..])
  }

  /** Text without white space in front of the rest passes through collapsing unchanged. */
  lemma {:induction false} CollapseKeepsWord(p: string, q: string)
    requires forall k :: 0 <= k < |p| ==> !IsSpace(p[k])
    ensures CollapseSpaces(p + q) == p + CollapseSpaces(q)
  {
    if |p| > 0 {
      var s := p + q;
      assert !IsSpace(s[0]) by { assert s[0] == p[0]; }
      assert s[1..] == p[1..] + q;
      assert forall k :: 0 <= k < |p[1..]| ==> !IsSpace(p[1..][k]) by {
        forall k | 0 <= k < |p[1..]| ensures !IsSpace(p[1..][k]) {
          assert p[1..][k] == p[k + 1];
        }
      }
      calc {
        CollapseSpaces(s);
        [s[0]] + CollapseSpaces(p[1..] + q);
        { CollapseKeepsWord(p[1..], q); }
        [p[0]] + (p[1..] + CollapseSpaces(q));
        { assert p == [p[0]] + p[1..]; }
        p + CollapseSpaces(q);
      }
    } else {
      assert p + q == q;
    }
  }

  /** Skipping a run of white space stops exactly where the run ends. */
  lemma {:induction false} SkipRun(w: string, q: string)
    requires forall k :: 0 <= k < |w| ==> IsSpace(w[k])
    requires |q| > 0 ==> !IsSpace(q[0])
    ensures SkipSpaces(w + q) == q
  {
    if |w| > 0 {
      assert (w + q)[0] == w[0] && (w + q)[1..] == w[1..] + q;
      SkipRun(w[1..], q);
    } else {
      assert w + q == q;
    }
  }

  /** A maximal run of white space becomes exactly one space. */
  lemma CollapseRun(w: string, q: string)
    requires |w| > 0 && forall k :: 0 <= k < |w| ==> IsSpace(w[k])
    requires |q| > 0 ==> !IsSpace(q[0])
    ensures CollapseSpaces(w + q) == " " + CollapseSpaces(q)
  {
    assert (w + q)[0] == w[0];
    SkipRun(w, q);
  }

  /** Collapsing white space cannot create a tag shape. */
  lemma {:induction false} CollapseKeepsNoTag(s: string)
    ensures NoTagLeft(s) ==> NoTagLeft(CollapseSpaces(s))
    decreases |s|
  {
    if NoTagLeft(s) && |s| > 0 {
      if IsSpace(s[0]) {
        var t := SkipSpaces(s);
        SliceKeeps(s, |s| - |t|, |s|);
        CollapseKeepsNoTag(t);
        NoTagLeftCons(' ', CollapseSpaces(t));
      } else {
        SliceKeeps(s, 1, |s|);
        CollapseKeepsNoTag(s[1..]);
        NoTagLeftCons(s[0], s[1..]);
        NoTagLeftCons(s[0], CollapseSpaces(s[1..]));
      }
    }
  }

  /** A prefix without white space of the collapsed text was already a prefix of the input. */
  lemma {:induction false} CollapsePrefix(s: string, p: string)
    requires forall k :: 0 <= k < |p| ==> !IsSpace(p[k])
    requires p <= CollapseSpaces(s)
    ensures p <= s
    decreases |s|
  {
    if |p| > 0 && !IsSpace(s[0]) {
      assert CollapseSpaces(s) == [s[0]] + CollapseSpaces(s[1..]);
      CollapsePrefix(s[1..], p[1..]);
    }
  }

  /** "&nbsp;" contains no white space. */
  lemma NbspHasNoSpace()
    ensures forall k :: 0 <= k < |NBSP| ==> !IsSpace(NBSP[k])
  {
  }

  /** A character in front of a string without "&nbsp;" creates one only at the front. */
  lemma ConsKeepsNoNbsp(c: char, rest: string)
    requires NoNbsp(rest) && !(NBSP <= [c] + rest)
    ensures NoNbsp([c] + rest)
  {
    var r := [c] + rest;
    forall i | 1 <= i <= |r|
      ensures !(NBSP <= r[i..])
    {
      assert r[i..] == rest[i - 1..];
    }
    assert r[0..] == r;
  }

  /** Collapsing white space cannot create an "&nbsp;". */
  lemma {:induction false} CollapseKeepsNoNbsp(s: string)
    ensures NoNbsp(s) ==> NoNbsp(CollapseSpaces(s))
    decreases |s|
  {
    if NoNbsp(s) && |s| > 0 {
      if IsSpace(s[0]) {
        var t := SkipSpaces(s);
        SliceKeeps(s, |s| - |t|, |s|);
        CollapseKeepsNoNbsp(t);
        assert NBSP[0] != ' ';
        ConsKeepsNoNbsp(' ', CollapseSpaces(t));
      } else {
        SliceKeeps(s, 1, |s|);
        CollapseKeepsNoNbsp(s[1..]);
        NbspHasNoSpace();
        if NBSP <= CollapseSpaces(s) {
          CollapsePrefix(s, NBSP);
        }
        assert s[0..] == s;
        ConsKeepsNoNbsp(s[0], CollapseSpaces(s[1..]));
      }
    }
  }

  /** Trimming keeps the four clean-text properties. */
  lemma TrimKeeps(s: string)
    ensures NoTagLeft(s) ==> NoTagLeft(Trim(s))
    ensures NoDoubleSpace(s) ==> NoDoubleSpace(Trim(s))
    ensures OnlyPlainSpaces(s) ==> OnlyPlainSpaces(Trim(s))
    ensures NoNbsp(s) ==> NoNbsp(Trim(s))
  {
    var r := Trim(s);
    var i := |s| - |TrimStart(s)|;
    SliceIsClean(s, r, i, i + |r|);
  }

  /** A string equal to a slice of a clean string is clean. */
  lemma SliceIsClean(s: string, r: string, i: int, j: int)
    requires 0 <= i <= j <= |s| && r == s[i..j]
    ensures NoTagLeft(s) ==> NoTagLeft(r)
    ensures NoDoubleSpace(s) ==> NoDoubleSpace(r)
    ensures OnlyPlainSpaces(s) ==> OnlyPlainSpaces(r)
    ensures NoNbsp(s) ==> NoNbsp(r)
  {
    SliceKeeps(s, i, j);
  }

  /** `BizinfoApi.stripHtml`: tags removed, "&nbsp;" turned into spaces, white
      space collapsed and trimmed. The result has no white space at either
      end, no two white-space characters in a row and none but plain
      spaces, no "&nbsp;", and no '<' with a '>' anywhere after it. */
  function StripHtml(html: string): (r: string)
    ensures |r| > 0 ==> !IsSpace(r[0]) && !IsSpace(r[|r| - 1])
    ensures NoDoubleSpace(r) && OnlyPlainSpaces(r)
    ensures NoNbsp(r)
    ensures NoTagLeft(r)
  {
    var untagged := RemoveTags(html);
    var spaced := ReplaceNbsp(untagged);
    ReplaceLeavesNoNbsp(untagged);
    var collapsed := CollapseSpaces(spaced);
    CollapseKeepsNoNbsp(spaced);
    CollapseKeepsNoTag(spaced);
    TrimKeeps(collapsed);
    Trim(collapsed)
  }

  /** Text that is already clean has no tag to remove. */
  lemma {:induction false} RemoveTagsClean(s: string)
    ensures NoTagLeft(s) ==> RemoveTags(s) == s
  {
    if NoTagLeft(s) && |s| > 0 {
      NoTagLeftCons(s[0], s[1..]);
      assert s == [s[0]] + s[1..];
      RemoveTagsClean(s[1..]);
    }
  }

  /** Text without "&nbsp;" is left alone by the replacement. */
  lemma {:induction false} ReplaceNbspClean(s: string)
    ensures NoNbsp(s) ==> ReplaceNbsp(s) == s
  {
    if NoNbsp(s) && |s| > 0 {
      assert s[0..] == s;
      SliceKeeps(s, 1, |s|);
      ReplaceNbspClean(s[1..]);
    }
  }

  /** A lone white-space character is all that is skipped. */
  lemma SkipSingleSpace(s: string)
    requires |s| > 0 && IsSpace(s[0]) && (|s| > 1 ==> !IsSpace(s[1]))
    ensures SkipSpaces(s) == s[1..]
  {
    assert SkipSpaces(s) == SkipSpaces(s[1..]);
  }

  /** Text with single plain spaces only is left alone by the collapsing. */
  lemma {:induction false} CollapseClean(s: string)
    requires NoDoubleSpace(s) && OnlyPlainSpaces(s)
    ensures CollapseSpaces(s) == s
    decreases |s|
  {
    if |s| > 0 {
      var tail := s[1..];
      SliceKeeps(s, 1, |s|);
      CollapseClean(tail);
      if IsSpace(s[0]) {
        assert s[0] == ' ';
        assert |s| > 1 ==> !IsSpace(s[1]);
        SkipSingleSpace(s);
      }
      assert s == [s[0]] + tail;
    }
  }

  /** Clean text is stripped to itself: together with the contract of
      `StripHtml`, the stripped texts are exactly the clean texts. */
  lemma StripHtmlOfClean(s: string)
    requires NoTagLeft(s) && NoNbsp(s) && NoDoubleSpace(s) && OnlyPlainSpaces(s)
    requires |s| > 0 ==> !IsSpace(s[0]) && !IsSpace(s[|s| - 1])
    ensures StripHtml(s) == s
  {
    RemoveTagsClean(s);
    ReplaceNbspClean(s);
    CollapseClean(s);
    TrimUntouched(s);
  }

  /** Stripping is idempotent: the stripped text is a fixed point. */
  lemma StripHtmlIdempotent(html: string)
    ensures StripHtml(StripHtml(html)) == StripHtml(html)
  {
    StripHtmlOfClean(StripHtml(html));
  }

  /** Stripping depends on the input only through its tag-free, entity-free form. */
  lemma StripHtmlOfSameText(a: string, b: string)
    ensures ReplaceNbsp(RemoveTags(a)) == ReplaceNbsp(RemoveTags(b)) ==> StripHtml(a) == StripHtml(b)
  {
  }

  /** A tag in the input is dropped and the text around it is kept: the
      result is that of the input without the tag. */
  lemma StripHtmlDropsTag(p: string, t: string, q: string)
    requires '<' !in p && '>' !in t
    ensures StripHtml(p + "<" + t + ">" + q) == StripHtml(p + q)
  {
    var a := p + "<" + t + ">" + q;
    assert RemoveTags(a) == RemoveTags(p + q) by {
      assert a == p + ("<" + t + ">" + q);
      RemoveTagsKeepsText(p, "<" + t + ">" + q);
      RemoveTagsDropsTag(t, q);
      RemoveTagsKeepsText(p, q);
    }
    StripHtmlOfSameText(a, p + q);
  }

  /** An "&nbsp;" in the text is stripped like a plain space. */
  lemma StripHtmlNbspIsSpace(p: string, q: string)
    requires '<' !in p && '&' !in p
    ensures StripHtml(p + NBSP + q) == StripHtml(p + " " + q)
  {
    var rq := RemoveTags(q);
    assert RemoveTags(p + NBSP + q) == p + NBSP + rq by {
      assert '<' !in p + NBSP;
      RemoveTagsKeepsText(p + NBSP, q);
    }
    assert RemoveTags(p + " " + q) == p + " " + rq by {
      RemoveTagsKeepsText(p + " ", q);
    }
    ReplaceNbspAfterText(p, rq);
    StripHtmlOfSameText(p + NBSP + q, p + " " + q);
  }

  /** After text without '&', an "&nbsp;" is replaced like a written space. */
  lemma ReplaceNbspAfterText(p: string, q: string)
    requires '&' !in p
    ensures ReplaceNbsp(p + NBSP + q) == ReplaceNbsp(p + " " + q)
  {
    assert p + NBSP + q == p + (NBSP + q);
    ReplaceNbspKeepsText(p, NBSP + q);
    ReplaceNbspEntity(q);
    assert p + " " + q == p + (" " + q);
    ReplaceNbspKeepsText(p, " " + q);
    ReplaceNbspKeepsText(" ", q);
  }


  // --------------------------------------------------------- formatDateRange

  /** Shown when no application period is announced yet. */
  const TO_BE_ANNOUNCED: string := "추후 공지"

  /** A piece of exactly eight characters (YYYYMMDD) is shown as YYYY.MM.DD;
      any other piece is shown unchanged. Dropping the two dots gives the
      piece back, and the first and last characters are kept. */
  function FormatDate(d: string): (r: string)
    ensures |d| == 8 ==> |r| == 10 && r[4] == '.' && r[7] == '.' && r[..4] + r[5..7] + r[8..] == d
    ensures |d| != 8 ==> r == d
    ensures forall c :: c in r ==> c in d || c == '.'
    ensures |r| > 0 ==> |d| > 0 && r[0] == d[0] && r[|r| - 1] == d[|d| - 1]
  {
    if |d| != 8 then d
    else
      var r := d[..4] + "." + d[4..6] + "." + d[6..];
      assert r[..4] + r[5..7] + r[8..] == d[..4] + d[4..6] + d[6..];
      assert d[..4] + d[4..6] + d[6..] == d;
      r
  }

  /** A formatted date is formatted again to itself. */
  lemma FormatDateIdempotent(d: string)
    ensures FormatDate(FormatDate(d)) == FormatDate(d)
  {
  }

  /** `BizinfoApi.formatDateRange`: the empty string and the "to be announced"
      text give the "to be announced" text; a text with other than exactly
      one '~' is returned unchanged; otherwise the two trimmed sides are
      formatted as dates and joined with " ~ ". */
  function FormatDateRange(dateRange: string): (r: string)
    ensures dateRange == "" || dateRange == TO_BE_ANNOUNCED ==> r == TO_BE_ANNOUNCED
    ensures dateRange != "" && dateRange != TO_BE_ANNOUNCED && Count(dateRange, '~') != 1 ==> r == dateRange
  {
    if dateRange == "" || dateRange == TO_BE_ANNOUNCED then TO_BE_ANNOUNCED
    else
      var parts := Split(dateRange, '~');
      SplitCount(dateRange, '~');
      if |parts| != 2 then dateRange
      else FormatDate(Trim(parts[0])) + " ~ " + FormatDate(Trim(parts[1]))
  }

  /** A range written as two '~'-free sides around one '~' is formatted side by side. */
  lemma FormatDateRangeOfSides(a: string, b: string)
    requires '~' !in a && '~' !in b
    ensures FormatDateRange(a + "~" + b) == FormatDate(Trim(a)) + " ~ " + FormatDate(Trim(b))
  {
    var s := a + "~" + b;
    assert s == a + ['~'] + b;
    assert s != "" && s[|a|] == '~' && '~' !in TO_BE_ANNOUNCED;
    SplitAfterPiece(a, '~', b);
    SplitNoSeparator(b, '~');
  }

  /** An eight-character date YYYYMMDD is shown as YYYY.MM.DD, character by character. */
  lemma FormatDateChars(d: string)
    requires |d| == 8
    ensures FormatDate(d) == [d[0], d[1], d[2], d[3], '.', d[4], d[5], '.', d[6], d[7]]
  {
  }

  /** Whether every character is a decimal digit. */
  predicate AllDigits(d: string) {
    forall k :: 0 <= k < |d| ==> '0' <= d[k] <= '9'
  }

  /** Two eight-digit dates around a '~', as in "20240101~20240201", read
      "YYYY.MM.DD ~ YYYY.MM.DD". */
  lemma FormatDateRangeOfDates(a: string, b: string)
    requires |a| == 8 && |b| == 8 && AllDigits(a) && AllDigits(b)
    ensures FormatDateRange(a + "~" + b)
         == [a[0], a[1], a[2], a[3], '.', a[4], a[5], '.', a[6], a[7]] + " ~ "
          + [b[0], b[1], b[2], b[3], '.', b[4], b[5], '.', b[6], b[7]]
  {
    assert FormatDateRange(a + "~" + b) == FormatDate(a) + " ~ " + FormatDate(b) by {
      assert '~' !in a && '~' !in b;
      assert !IsSpace(a[0]) && !IsSpace(a[7]) && !IsSpace(b[0]) && !IsSpace(b[7]);
      FormatDateRangeOfTrimmed(a, b);
    }
    FormatDateChars(a);
    FormatDateChars(b);
  }

  /** Two trimmed, '~'-free sides around a '~' are formatted side by side. */
  lemma FormatDateRangeOfTrimmed(a: string, b: string)
    requires '~' !in a && '~' !in b
    requires |a| > 0 ==> !IsSpace(a[0]) && !IsSpace(a[|a| - 1])
    requires |b| > 0 ==> !IsSpace(b[0]) && !IsSpace(b[|b| - 1])
    ensures FormatDateRange(a + "~" + b) == FormatDate(a) + " ~ " + FormatDate(b)
  {
    FormatDateRangeOfSides(a, b);
    TrimUntouched(a);
    TrimUntouched(b);
  }

  /** Two trimmed, '~'-free sides joined with " ~ " are formatted side by side. */
  lemma FormatDateRangeOfJoined(p: string, q: string)
    requires '~' !in p && '~' !in q
    requires |p| > 0 ==> !IsSpace(p[0]) && !IsSpace(p[|p| - 1])
    requires |q| > 0 ==> !IsSpace(q[0]) && !IsSpace(q[|q| - 1])
    ensures FormatDateRange(p + " ~ " + q) == FormatDate(p) + " ~ " + FormatDate(q)
  {
    assert p + " ~ " + q == (p + " ") + "~" + (" " + q);
    FormatDateRangeOfSides(p + " ", " " + q);
    TrimPadded(p);
    TrimPadded(q);
  }

  /** Formatting a range twice is the same as formatting it once. */
  lemma FormatDateRangeIdempotent(dateRange: string)
    ensures FormatDateRange(FormatDateRange(dateRange)) == FormatDateRange(dateRange)
  {
    if dateRange != "" && dateRange != TO_BE_ANNOUNCED {
      var parts := Split(dateRange, '~');
      if |parts| == 2 {
        var a := Trim(parts[0]);
        var b := Trim(parts[1]);
        TrimChars(parts[0]);
        TrimChars(parts[1]);
        FormatDateRangeOfJoined(FormatDate(a), FormatDate(b));
        FormatDateIdempotent(a);
        FormatDateIdempotent(b);
      }
    }
  }

  // ------------------------------------------------------------- searchFunds

  /** Field-of-support codes of the listing service. */
  const BIZINFO_CATEGORIES: map<string, string> := map[
    "금융" := "PLD0001", "기술" := "PLD0002", "인력" := "PLD0003", "수출" := "PLD0004",
    "내수" := "PLD0005", "창업" := "PLD0006", "경영" := "PLD0007", "기타" := "PLD0008"]

  const STARTUP_CATEGORY: string := "창업"
  const DEFAULT_SEARCH_COUNT: int := 50
  const STARTUP_SEARCH_COUNT: int := 30

  /** One support programme as the listing service returns it. */
  datatype BizinfoItem = BizinfoItem(
    pblancId: string, pblancNm: string, bsnsSumryCn: string, reqstBeginEndDe: string,
    jrsdInsttNm: string, excInsttNm: string, refrncNm: string, pblancUrl: string,
    hashtags: string, trgetNm: string, pldirSportRealmLclasCodeNm: string,
    pldirSportRealmMlsfcCodeNm: string, creatPnttm: string, totCnt: int)

  /** Options of a search; absent fields are `None`. */
  datatype SearchOptions = SearchOptions(category: Option<string>, hashtags: Option<string>, count: Option<int>)

  /** The query parameters of a search request (the URL encoding is not modelled). */
  datatype SearchParams = SearchParams(
    crtfcKey: string, dataType: string, searchCnt: int,
    searchLclasId: Option<string>, hashtags: Option<string>)

  /** The decoded body of a response; both fields may be missing. */
  datatype BizinfoResponse = BizinfoResponse(jsonArray: Option<seq<BizinfoItem>>, reqErr: Option<string>)

  /** What the request produced: a response with its status, or an exception
      (a timeout, a network error or an undecodable body) with its message. */
  datatype Reply =
    | Received(ok: bool, status: int, body: BizinfoResponse)
    | Raised(message: string)

  /** Why a search failed. */
  datatype FetchError =
    | MissingKey
    | HttpStatus(status: int)
    | ApiReported(reqErr: string)
    | Transport(message: string)

  const MISSING_KEY_MESSAGE: string := "BIZINFO_API_KEY가 설정되지 않았습니다."
  const STATUS_PREFIX: string := "기업마당 API 요청 실패: "
  const API_ERROR_PREFIX: string := "기업마당 API 오류: "

  /** The `Error` message each failure is thrown with. */
  function ErrorMessage(e: FetchError): (m: string)
    ensures e.MissingKey? ==> m == MISSING_KEY_MESSAGE
    ensures e.HttpStatus? ==> STATUS_PREFIX <= m
    ensures e.ApiReported? ==> m == API_ERROR_PREFIX + e.reqErr
    ensures e.Transport? ==> m == e.message
  {
    match e
    case MissingKey => MISSING_KEY_MESSAGE
    case HttpStatus(status) => STATUS_PREFIX + IntToString(status)
    case ApiReported(reqErr) => API_ERROR_PREFIX + reqErr
    case Transport(message) => message
  }

  /** The status of a failed request can be read back from its message. */
  lemma StatusInMessage(status: nat)
    ensures DigitsValue(ErrorMessage(HttpStatus(status))[|STATUS_PREFIX|..]) == status
  {
    assert ErrorMessage(HttpStatus(status))[|STATUS_PREFIX|..] == Digits(status);
    DigitsRoundTrip(status);
  }

  /** The request parameters of `searchFunds`: the key, JSON output, the count
      (absent or zero means 50), and the category code and hashtags only when
      they are given and non-empty. */
  function BuildParams(apiKey: string, options: SearchOptions): (p: SearchParams)
    requires options.category.Some? ==> options.category.value in BIZINFO_CATEGORIES
    ensures p.crtfcKey == apiKey && p.dataType == "json"
    ensures options.count.Some? && options.count.value != 0 ==> p.searchCnt == options.count.value
    ensures options.count.None? || options.count.value == 0 ==> p.searchCnt == DEFAULT_SEARCH_COUNT
    ensures p.searchLclasId.Some? <==> options.category.Some? && options.category.value != ""
    ensures p.searchLclasId.Some? ==> p.searchLclasId.value == BIZINFO_CATEGORIES[options.category.value]
    ensures p.hashtags.Some? <==> options.hashtags.Some? && options.hashtags.value != ""
    ensures p.hashtags.Some? ==> p.hashtags == options.hashtags
  {
    var count := if options.count.Some? && options.count.value != 0 then options.count.value else DEFAULT_SEARCH_COUNT;
    var category :=
      if options.category.Some? && options.category.value != "" then Some(BIZINFO_CATEGORIES[options.category.value])
      else None;
    var hashtags := if options.hashtags.Some? && options.hashtags.value != "" then options.hashtags else None;
    SearchParams(apiKey, "json", count, category, hashtags)
  }

  /** `searchFunds` with the HTTP call as the parameter `fetch`. A missing key
      fails before any request is built; a non-ok status fails; a reported
      `reqErr` fails; otherwise the listing is returned, an absent one as the
      empty listing. */
  function SearchFunds(apiKey: string, options: SearchOptions, fetch: SearchParams -> Reply)
    : (r: Result<seq<BizinfoItem>, FetchError>)
    requires options.category.Some? ==> options.category.value in BIZINFO_CATEGORIES
    ensures apiKey == "" <==> r == Failure(MissingKey)
    ensures apiKey != "" ==>
      var reply := fetch(BuildParams(apiKey, options));
      && (reply.Raised? ==> r == Failure(Transport(reply.message)))
      && (reply.Received? && !reply.ok ==> r == Failure(HttpStatus(reply.status)))
      && (reply.Received? && reply.ok && reply.body.reqErr.Some? && reply.body.reqErr.value != "" ==>
            r == Failure(ApiReported(reply.body.reqErr.value)))
      && (reply.Received? && reply.ok && (reply.body.reqErr.None? || reply.body.reqErr.value == "") ==>
            r == Success(reply.body.jsonArray.GetOr([])))
  {
    if apiKey == "" then Failure(MissingKey)
    else
      match fetch(BuildParams(apiKey, options))
      case Raised(message) => Failure(Transport(message))
      case Received(ok, status, body) =>
        if !ok then Failure(HttpStatus(status))
        else if body.reqErr.Some? && body.reqErr.value != "" then Failure(ApiReported(body.reqErr.value))
        else Success(body.jsonArray.GetOr([]))
  }

  /** A search with a key succeeds exactly when the request returns an ok
      response without a reported error, and then the listing does not depend
      on anything but the body. */
  lemma SearchSucceeds(apiKey: string, options: SearchOptions, fetch: SearchParams -> Reply)
    requires options.category.Some? ==> options.category.value in BIZINFO_CATEGORIES
    ensures SearchFunds(apiKey, options, fetch).Success? <==>
      var reply := fetch(BuildParams(apiKey, options));
      apiKey != "" && reply.Received? && reply.ok && (reply.body.reqErr.None? || reply.body.reqErr.value == "")
  {
  }

  // ------------------------------------------------------ searchStartupFunds

  /** The hashtags of a startup search as a list: "창업", the region when it
      is non-empty, and "청년" or "여성" for those two founder types only. */
  function StartupTags(region: string, founderType: Option<string>): seq<string>
  {
    ["창업"] + (if region != "" then [region] else [])
    + (if founderType == Some("청년") then ["청년"] else if founderType == Some("여성") then ["여성"] else [])
  }

  /** The hashtag text `searchStartupFunds` builds by appending ",tag" pieces. */
  function StartupHashtags(region: string, founderType: Option<string>): (h: string)
    ensures "창업" <= h
  {
    var h := "창업";
    var h := if region != "" then h + "," + region else h;
    if founderType == Some("청년") then h + ",청년"
    else if founderType == Some("여성") then h + ",여성"
    else h
  }

  /** When the region has no comma, splitting the hashtag text on ',' gives
      back exactly the intended tag list. */
  lemma StartupHashtagsSplit(region: string, founderType: Option<string>)
    requires ',' !in region
    ensures Split(StartupHashtags(region, founderType), ',') == StartupTags(region, founderType)
  {
    var withRegion := if region != "" then ["창업", region] else ["창업"];
    assert Join(withRegion, ',') == (if region != "" then "창업" + "," + region else "창업") by {
      if region != "" {
        JoinSnoc(["창업"], region, ',');
        assert ["창업"] + [region] == withRegion;
      }
    }
    var tags := StartupTags(region, founderType);
    var h0 := if region != "" then "창업" + "," + region else "창업";
    if founderType == Some("청년") {
      JoinSnoc(withRegion, "청년", ',');
      assert tags == withRegion + ["청년"];
      assert h0 + [','] + "청년" == h0 + ",청년";
    } else if founderType == Some("여성") {
      JoinSnoc(withRegion, "여성", ',');
      assert tags == withRegion + ["여성"];
      assert h0 + [','] + "여성" == h0 + ",여성";
    } else {
      assert tags == withRegion;
    }
    assert Join(tags, ',') == StartupHashtags(region, founderType);
    assert forall k :: 0 <= k < |tags| ==> tags[k] == "창업" || tags[k] == region || tags[k] == "청년" || tags[k] == "여성";
    assert ',' !in "창업" && ',' !in "청년" && ',' !in "여성";
    SplitJoin(tags, ',');
  }

  /** The options `searchStartupFunds` hands to `searchFunds`: the startup
      category, the startup hashtags, and the count (absent or zero means 30). */
  function StartupOptions(region: string, founderType: Option<string>, count: Option<int>): (o: SearchOptions)
    ensures o.category == Some(STARTUP_CATEGORY) && STARTUP_CATEGORY in BIZINFO_CATEGORIES
    ensures o.hashtags == Some(StartupHashtags(region, founderType))
    ensures count.Some? && count.value != 0 ==> o.count == count
    ensures count.None? || count.value == 0 ==> o.count == Some(STARTUP_SEARCH_COUNT)
  {
    var n := if count.Some? && count.value != 0 then count.value else STARTUP_SEARCH_COUNT;
    SearchOptions(Some(STARTUP_CATEGORY), Some(StartupHashtags(region, founderType)), Some(n))
  }

  /** The parameters of a startup search: category code PLD0006, the startup
      hashtags, and a count that is never the default 50 unless asked for. */
  lemma StartupParams(apiKey: string, region: string, founderType: Option<string>, count: Option<int>)
    ensures var p := BuildParams(apiKey, StartupOptions(region, founderType, count));
      && p.searchLclasId == Some("PLD0006")
      && p.hashtags == Some(StartupHashtags(region, founderType))
      && (count.None? ==> p.searchCnt == STARTUP_SEARCH_COUNT)
  {
  }
}
