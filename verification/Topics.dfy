/**
  Validation of SUBSCRIBE topic filters by splitting them into levels, and the
  character-level grammar of sections 4.7.1 and 4.8.2 of MQTT 5.0 it accepts.
 */
module Topics {

  datatype Refusal =
    | EmptyFilter | InvalidText
    | MissingGroup | InvalidGroup | MissingFilter
    | HashNotLast | HashNotAlone | PlusNotAlone

  datatype Verdict = Accepted | Refused(reason: Refusal)

  const SHARE_PREFIX: string := "$share/"

  // ---- the validator ----

  /** The position of the first separator, or the length when there is none. */
  function FirstSlash(s: string): (k: nat)
    ensures k <= |s| && (k < |s| ==> s[k] == '/') && (forall i :: 0 <= i < k ==> s[i] != '/')
  {
    if s == [] || s[0] == '/' then 0 else 1 + FirstSlash(s[1..])
  }

  function Split(s: string): seq<string>
    decreases |s|
  {
    var k := FirstSlash(s);
    if k == |s| then [s] else [s[..k]] + Split(s[k + 1..])
  }

  function CheckLevel(level: string, last: bool): Verdict {
    if level == "#" then (if last then Accepted else Refused(HashNotLast))
    else if '#' in level then Refused(HashNotAlone)
    else if level == "+" then Accepted
    else if '+' in level then Refused(PlusNotAlone)
    else Accepted
  }

  /** The first level that is refused decides. */
  function CheckLevels(levels: seq<string>): Verdict {
    if levels == [] then Accepted
    else
      var v := CheckLevel(levels[0], |levels| == 1);
      if v.Refused? then v else CheckLevels(levels[1..])
  }

  /** What follows the `$share/` prefix: a group, a separator and a filter. */
  function CheckShared(rest: string): Verdict {
    var k := FirstSlash(rest);
    if k == |rest| then Refused(MissingGroup)
    else if rest[..k] == [] || '/' in rest[..k] || '+' in rest[..k] || '#' in rest[..k] then Refused(InvalidGroup)
    else if rest[k + 1..] == [] then Refused(MissingFilter)
    else CheckLevels(Split(rest[k + 1..]))
  }

  /** `text` tells whether the filter is a valid MQTT string, which is decided elsewhere. */
  function ValidateSubscribeFilter(f: string, text: bool): Verdict {
    if f == [] then Refused(EmptyFilter)
    else if !text then Refused(InvalidText)
    else if SHARE_PREFIX <= f then CheckShared(f[|SHARE_PREFIX|..])
    else CheckLevels(Split(f))
  }

  /** The verdict is that of the first refused level, judged by its position among the levels. */
  lemma {:induction false} FirstRefusalDecides(levels: seq<string>)
    ensures CheckLevels(levels).Accepted? <==>
              forall i :: 0 <= i < |levels| ==> CheckLevel(levels[i], i == |levels| - 1).Accepted?
    ensures CheckLevels(levels).Refused? ==>
              exists i :: 0 <= i < |levels| && CheckLevel(levels[i], i == |levels| - 1) == CheckLevels(levels)
                          && forall j :: 0 <= j < i ==> CheckLevel(levels[j], false).Accepted?
  {
    if levels != [] {
      var rest := levels[1..];
      assert forall i :: 0 <= i < |rest| ==> rest[i] == levels[i + 1];
      FirstRefusalDecides(rest);
      assert CheckLevel(levels[0], |levels| == 1) == CheckLevel(levels[0], 0 == |levels| - 1);
      if CheckLevel(levels[0], |levels| == 1).Accepted? && CheckLevels(rest).Refused? {
        var i :| 0 <= i < |rest| && CheckLevel(rest[i], i == |rest| - 1) == CheckLevels(rest)
                 && forall j :: 0 <= j < i ==> CheckLevel(rest[j], false).Accepted?;
        assert CheckLevel(levels[i + 1], i + 1 == |levels| - 1) == CheckLevels(levels);
        forall j | 0 <= j < i + 1
          ensures CheckLevel(levels[j], false).Accepted?
        {
          if j > 0 {
            assert levels[j] == rest[j - 1];
          }
        }
      }
    }
  }

  // ---- the grammar ----

  predicate HashAllowed(f: string, i: nat)
    requires i < |f|
  {
    i == |f| - 1 && (i == 0 || f[i - 1] == '/')
  }

  predicate PlusAllowed(f: string, i: nat)
    requires i < |f|
  {
    (i == 0 || f[i - 1] == '/') && (i == |f| - 1 || f[i + 1] == '/')
  }

  /** Every wildcard occupies an entire level, and `#` is the last character. */
  predicate Wildcards(f: string) {
    && (forall i :: 0 <= i < |f| && f[i] == '#' ==> HashAllowed(f, i))
    && (forall i :: 0 <= i < |f| && f[i] == '+' ==> PlusAllowed(f, i))
  }

  predicate Plain(s: string) {
    '/' !in s && '+' !in s && '#' !in s
  }

  /** A group that is one wildcard-free level, a separator, and a filter of its own. */
  predicate SharedRest(rest: string, group: string, filter: string) {
    rest == group + "/" + filter && group != [] && Plain(group) && filter != [] && Wildcards(filter)
  }

  predicate SharedForm(f: string, group: string, filter: string) {
    SHARE_PREFIX <= f && SharedRest(f[|SHARE_PREFIX|..], group, filter)
  }

  ghost predicate Grammar(f: string) {
    f != [] && if SHARE_PREFIX <= f then exists group, filter :: SharedForm(f, group, filter) else Wildcards(f)
  }

  // ---- splitting meets the grammar ----

  lemma {:induction false} OneLevel(a: string)
    requires '/' !in a
    ensures CheckLevel(a, true).Accepted? <==> Wildcards(a)
  {
    if Wildcards(a) {
      if '#' in a {
        var i :| 0 <= i < |a| && a[i] == '#';
        assert HashAllowed(a, i);
        assert a == "#";
      } else if '+' in a {
        var i :| 0 <= i < |a| && a[i] == '+';
        assert PlusAllowed(a, i);
        assert a == "+";
      }
    }
  }

  /** A leading level is judged alone, and what follows it as if it stood alone. */
  lemma {:induction false} LeadingLevel(a: string, b: string)
    requires '/' !in a
    ensures Wildcards(a + "/" + b) <==> CheckLevel(a, false).Accepted? && Wildcards(b)
  {
    var f, n := a + "/" + b, |a| + 1;
    assert forall i :: 0 <= i < |a| ==> f[i] == a[i];
    assert f[|a|] == '/';
    assert forall i :: 0 <= i < |b| ==> f[n + i] == b[i];
    if Wildcards(f) {
      forall i | 0 <= i < |b| && b[i] == '#'
        ensures HashAllowed(b, i)
      {
        assert HashAllowed(f, n + i);
        assert i > 0 ==> f[n + i - 1] == b[i - 1];
      }
      forall i | 0 <= i < |b| && b[i] == '+'
        ensures PlusAllowed(b, i)
      {
        assert PlusAllowed(f, n + i);
        assert i > 0 ==> f[n + i - 1] == b[i - 1];
        assert i < |b| - 1 ==> f[n + i + 1] == b[i + 1];
      }
      LevelOfGrammar(a, b);
    }
    if CheckLevel(a, false).Accepted? && Wildcards(b) {
      GrammarOfLevel(a, b);
    }
  }

  lemma {:induction false} LevelOfGrammar(a: string, b: string)
    requires '/' !in a && Wildcards(a + "/" + b)
    ensures CheckLevel(a, false).Accepted?
  {
    var f := a + "/" + b;
    assert forall i :: 0 <= i < |a| ==> f[i] == a[i];
    assert '#' !in a;
    if '+' in a {
      var i :| 0 <= i < |a| && a[i] == '+';
      assert f[i] == '+' && PlusAllowed(f, i);
      assert a == "+";
    }
  }

  lemma {:induction false} GrammarOfLevel(a: string, b: string)
    requires '/' !in a && CheckLevel(a, false).Accepted? && Wildcards(b)
    ensures Wildcards(a + "/" + b)
  {
    var f, n := a + "/" + b, |a| + 1;
    assert forall i :: 0 <= i < |a| ==> f[i] == a[i];
    assert f[|a|] == '/';
    assert forall i :: n <= i < |f| ==> f[i] == b[i - n];
    forall i | 0 <= i < |f| && f[i] == '#'
      ensures HashAllowed(f, i)
    {
      assert forall j :: 0 <= j < |a| ==> a[j] in a;
      assert HashAllowed(b, i - n);
    }
    forall i | 0 <= i < |f| && f[i] == '+'
      ensures PlusAllowed(f, i)
    {
      if i < |a| {
        assert '+' in a;
        assert a == "+";
      } else {
        assert PlusAllowed(b, i - n);
      }
    }
  }

  /** Level by level the validator decides the character-level rules, for every string. */
  lemma {:induction false} LevelsMeetWildcards(f: string)
    ensures CheckLevels(Split(f)).Accepted? <==> Wildcards(f)
    decreases |f|
  {
    var k := FirstSlash(f);
    if k == |f| {
      assert CheckLevels([f]).Accepted? <==> CheckLevel(f, true).Accepted? by {
        assert [f][1..] == [];
      }
      OneLevel(f);
    } else {
      var a, b := f[..k], f[k + 1..];
      assert f == a + "/" + b;
      LeadingLevel(a, b);
      LevelsMeetWildcards(b);
      assert Split(f) == [a] + Split(b);
      assert Split(f)[1..] == Split(b);
      assert |Split(b)| >= 1;
    }
  }

  lemma {:induction false} RejoinAt(s: string, k: nat)
    requires k < |s| && s[k] == '/'
    ensures s == s[..k] + "/" + s[k + 1..]
  {
  }

  lemma {:induction false} AcceptedRest(rest: string)
    requires CheckShared(rest).Accepted?
    ensures var k := FirstSlash(rest); k < |rest| && SharedRest(rest, rest[..k], rest[k + 1..])
  {
    var k := FirstSlash(rest);
    LevelsMeetWildcards(rest[k + 1..]);
    RejoinAt(rest, k);
  }

  /** A shared filter has one reading: the group ends at the first separator. */
  lemma {:induction false} RestAccepted(rest: string, group: string, filter: string)
    requires SharedRest(rest, group, filter)
    ensures CheckShared(rest).Accepted?
  {
    assert rest[|group|] == '/';
    assert forall i :: 0 <= i < |group| ==> rest[i] == group[i];
    assert FirstSlash(rest) == |group|;
    assert rest[..|group|] == group && rest[|group| + 1..] == filter;
    LevelsMeetWildcards(filter);
  }

  /** A filter is accepted exactly when it is valid text and follows the grammar. */
  lemma {:induction false} AcceptsGrammar(f: string, text: bool)
    ensures ValidateSubscribeFilter(f, text).Accepted? <==> text && Grammar(f)
  {
    if f != [] && text {
      if SHARE_PREFIX <= f {
        AcceptsSharedForm(f);
      } else {
        LevelsMeetWildcards(f);
      }
    }
  }

  lemma {:induction false} AcceptsSharedForm(f: string)
    requires SHARE_PREFIX <= f
    ensures ValidateSubscribeFilter(f, true).Accepted? <==> exists group, filter :: SharedForm(f, group, filter)
  {
    var rest := f[|SHARE_PREFIX|..];
    if CheckShared(rest).Accepted? {
      var k := FirstSlash(rest);
      AcceptedRest(rest);
      assert SharedForm(f, rest[..k], rest[k + 1..]);
    }
    if group, filter :| SharedForm(f, group, filter) {
      RestAccepted(rest, group, filter);
    }
  }

  /** A shared filter read as a plain one would also be well formed: sharing only narrows the grammar. */
  lemma {:induction false} SharingNarrows(f: string)
    requires Grammar(f)
    ensures Wildcards(f)
  {
    if SHARE_PREFIX <= f {
      var group, filter :| SharedForm(f, group, filter);
      GrammarOfLevel(group, filter);
      GrammarOfLevel("$share", group + "/" + filter);
      assert f == SHARE_PREFIX + f[|SHARE_PREFIX|..];
      assert "$share" + "/" == SHARE_PREFIX;
    }
  }
}
