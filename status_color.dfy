/**
 The colour of the status dot, chosen from a status keyword such as
 "checkmark.circle.fill": an ordered list of substring tests where the first
 test that matches decides, and gray when none matches.
 */
module StatusColor {

  datatype Color = Green | Red | Blue | Orange | Gray

  /** `sub` occurs in `s` starting at position `i`. */
  predicate OccursAt(s: string, sub: string, i: int)
  {
    0 <= i && i + |sub| <= |s| && s[i..i + |sub|] == sub
  }

  /** Substring containment (Swift's `String.contains`), scanning from the front. */
  predicate Contains(s: string, sub: string)
    decreases |s|
  {
    sub <= s || (|s| > 0 && Contains(s[1..], sub))
  }

  /** The scan finds `sub` exactly when `sub` occurs somewhere in `s`. */
  lemma {:induction false} ContainsIff(s: string, sub: string)
    ensures Contains(s, sub) <==> exists i :: OccursAt(s, sub, i)
  {
    if sub <= s {
      assert OccursAt(s, sub, 0);
    } else if |s| > 0 {
      ContainsIff(s[1..], sub);
      if j :| OccursAt(s[1..], sub, j) {
        assert s[1..][j..j + |sub|] == s[j + 1..j + 1 + |sub|];
        assert OccursAt(s, sub, j + 1);
      }
      if i :| OccursAt(s, sub, i) {
        assert i != 0;
        assert s[i..i + |sub|] == s[1..][i - 1..i - 1 + |sub|];
        assert OccursAt(s[1..], sub, i - 1);
      }
    }
  }

  /** The keyword tests of the status dot, in the order they are tried. */
  const STATUS_RULES: seq<(string, Color)> :=
    [("checkmark", Green), ("xmark", Red), ("arrow.clockwise", Blue), ("exclamationmark", Orange)]

  /** The colour of the first rule whose substring occurs in `keyword`, or `fallback`. */
  function FirstMatch(rules: seq<(string, Color)>, keyword: string, fallback: Color): Color
  {
    if rules == [] then fallback
    else if Contains(keyword, rules[0].0) then rules[0].1
    else FirstMatch(rules[1..], keyword, fallback)
  }

  /** First match wins: rule `i` decides exactly when it matches and no earlier rule does. */
  lemma {:induction false} FirstMatchWins(rules: seq<(string, Color)>, keyword: string, fallback: Color, i: nat)
    requires i < |rules|
    requires Contains(keyword, rules[i].0)
    requires forall j :: 0 <= j < i ==> !Contains(keyword, rules[j].0)
    ensures FirstMatch(rules, keyword, fallback) == rules[i].1
  {
    if i > 0 {
      assert !Contains(keyword, rules[0].0);
      FirstMatchWins(rules[1..], keyword, fallback, i - 1);
    }
  }

  /** When no rule matches, the fallback decides. */
  lemma {:induction false} FirstMatchFallback(rules: seq<(string, Color)>, keyword: string, fallback: Color)
    requires forall j :: 0 <= j < |rules| ==> !Contains(keyword, rules[j].0)
    ensures FirstMatch(rules, keyword, fallback) == fallback
  {
    if rules != [] {
      assert !Contains(keyword, rules[0].0);
      FirstMatchFallback(rules[1..], keyword, fallback);
    }
  }

  /** The fill colour of the dot drawn for `iconName`, as the if/else chain in updateIcon. */
  function DotColor(iconName: string): Color
  {
    if Contains(iconName, "checkmark") then Green
    else if Contains(iconName, "xmark") then Red
    else if Contains(iconName, "arrow.clockwise") then Blue
    else if Contains(iconName, "exclamationmark") then Orange
    else Gray
  }

  /** The if/else chain is the ordered rule table read first-match-wins. */
  lemma DotColorFollowsRules(k: string)
    ensures DotColor(k) == FirstMatch(STATUS_RULES, k, Gray)
  {
    var r := STATUS_RULES;
    if Contains(k, "checkmark") {
      FirstMatchWins(r, k, Gray, 0);
    } else if Contains(k, "xmark") {
      FirstMatchWins(r, k, Gray, 1);
    } else if Contains(k, "arrow.clockwise") {
      FirstMatchWins(r, k, Gray, 2);
    } else if Contains(k, "exclamationmark") {
      FirstMatchWins(r, k, Gray, 3);
    } else {
      FirstMatchFallback(r, k, Gray);
    }
  }

  /**
   The priority of the keywords, both ways: each colour is produced exactly
   when its keyword occurs and no keyword tried before it does.
   */
  lemma DotColorPriority(k: string)
    ensures DotColor(k) == Green <==> Contains(k, "checkmark")
    ensures DotColor(k) == Red <==> !Contains(k, "checkmark") && Contains(k, "xmark")
    ensures DotColor(k) == Blue <==>
      !Contains(k, "checkmark") && !Contains(k, "xmark") && Contains(k, "arrow.clockwise")
    ensures DotColor(k) == Orange <==>
      !Contains(k, "checkmark") && !Contains(k, "xmark") && !Contains(k, "arrow.clockwise")
      && Contains(k, "exclamationmark")
    ensures DotColor(k) == Gray <==>
      !Contains(k, "checkmark") && !Contains(k, "xmark") && !Contains(k, "arrow.clockwise")
      && !Contains(k, "exclamationmark")
  {
  }

  /** A keyword that occurs at `i` of `s` is contained in `s`. */
  lemma ContainsAt(s: string, sub: string, i: int)
    requires OccursAt(s, sub, i)
    ensures Contains(s, sub)
  {
    ContainsIff(s, sub);
  }

  /** `sub` is not contained in `s` when one of its characters never appears in `s`. */
  lemma {:induction false} NotContainsChar(s: string, sub: string, c: char)
    requires c in sub && c !in s
    ensures !Contains(s, sub)
  {
    if |s| > 0 {
      assert c !in s[1..] by { assert forall x | x in s[1..] :: x in s; }
      NotContainsChar(s[1..], sub, c);
    }
  }

  /** The one 'x' of "exclamationmark" is followed by 'c', never by 'm'. */
  lemma ExclamationLacksXmark(k: string, x: string)
    requires k == "exclamationmark" && x == "xmark"
    ensures !Contains(k, x)
  {
    assert k[0] != x[0];
    assert k[1..][1] != x[1];
    NotContainsChar(k[2..], x, 'x');
  }

  /**
   No keyword of the table contains a keyword tried before it (the only 'x'
   of "exclamationmark" is followed by 'c', so "xmark" does not occur in it).
   */
  lemma KeywordLacksEarlierKeywords(i: nat, j: nat)
    requires j < i < |STATUS_RULES|
    ensures !Contains(STATUS_RULES[i].0, STATUS_RULES[j].0)
  {
    var k, earlier := STATUS_RULES[i].0, STATUS_RULES[j].0;
    if i == 3 && j == 1 {
      ExclamationLacksXmark(k, earlier);
    } else {
      var c := if i == 1 then 'c' else if j == 0 then 'h' else if i == 2 then 'x' else 'w';
      assert c in earlier && c !in k;
      NotContainsChar(k, earlier, c);
    }
  }

  /**
   No rule is shadowed by an earlier one: each keyword on its own gives its
   own colour, and a keyword with none of them gives gray.
   */
  lemma EveryColorReachable()
    ensures DotColor("checkmark") == Green
    ensures DotColor("xmark") == Red
    ensures DotColor("arrow.clockwise") == Blue
    ensures DotColor("exclamationmark") == Orange
    ensures DotColor("") == Gray
  {
    KeywordLacksEarlierKeywords(1, 0);
    KeywordLacksEarlierKeywords(2, 0);
    KeywordLacksEarlierKeywords(2, 1);
    KeywordLacksEarlierKeywords(3, 0);
    KeywordLacksEarlierKeywords(3, 1);
    KeywordLacksEarlierKeywords(3, 2);
  }
}
