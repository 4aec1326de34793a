/**
 * The case-insensitive substring test a `contains` filter with insensitive
 * mode applies to todo titles. Case folding is ASCII lower-casing here.
 */
module TextSearch {

  /** ASCII lower-casing of one character; every other character is left alone. */
  function Lower(c: char): (d: char)
    ensures !('A' <= d <= 'Z')
    ensures !('A' <= c <= 'Z') ==> d == c
    ensures 'A' <= c <= 'Z' ==> d as int == c as int + 32
  {
    if 'A' <= c <= 'Z' then (c as int - 'A' as int + 'a' as int) as char else c
  }

  function LowerStr(s: string): (r: string)
    ensures |r| == |s|
    ensures forall i :: 0 <= i < |s| ==> r[i] == Lower(s[i])
  {
    seq(|s|, i requires 0 <= i < |s| => Lower(s[i]))
  }

  /** Whether `needle` occurs as a contiguous part of `hay`, scanning left to right. */
  function HasInfix(hay: string, needle: string): bool
    decreases |hay|
  {
    if |needle| > |hay| then false
    else if hay[..|needle|] == needle then true
    else HasInfix(hay[1..], needle)
  }

  ghost predicate OccursAt(hay: string, needle: string, i: int) {
    0 <= i && i + |needle| <= |hay| && hay[i..i + |needle|] == needle
  }

  /** The scan finds an occurrence exactly when there is one. */
  lemma {:induction false} HasInfixIff(hay: string, needle: string)
    ensures HasInfix(hay, needle) <==> exists i :: OccursAt(hay, needle, i)
    decreases |hay|
  {
    if |needle| > |hay| {
    } else if hay[..|needle|] == needle {
      assert OccursAt(hay, needle, 0);
    } else {
      HasInfixIff(hay[1..], needle);
      if HasInfix(hay[1..], needle) {
        var i :| OccursAt(hay[1..], needle, i);
        assert hay[i + 1..i + 1 + |needle|] == hay[1..][i..i + |needle|];
        assert OccursAt(hay, needle, i + 1);
      } else {
        forall i | OccursAt(hay, needle, i) ensures false {
          if i != 0 {
            assert hay[1..][i - 1..i - 1 + |needle|] == hay[i..i + |needle|];
            assert OccursAt(hay[1..], needle, i - 1);
          }
        }
      }
    }
  }

  /** The filter `title contains search` in insensitive mode. */
  function ContainsInsensitive(title: string, search: string): (r: bool)
    ensures search == "" ==> r
  {
    HasInfix(LowerStr(title), LowerStr(search))
  }

  /** `search` appears in `title` from position `i` on, letter case ignored. */
  ghost predicate MatchesAt(title: string, search: string, i: int) {
    0 <= i && i + |search| <= |title| &&
    forall k :: 0 <= k < |search| ==> Lower(title[i + k]) == Lower(search[k])
  }

  /** The filter holds exactly when some position of the title matches the search term up to case. */
  lemma ContainsInsensitiveIff(title: string, search: string)
    ensures ContainsInsensitive(title, search) <==> exists i :: MatchesAt(title, search, i)
  {
    var t, s := LowerStr(title), LowerStr(search);
    HasInfixIff(t, s);
    forall i ensures OccursAt(t, s, i) <==> MatchesAt(title, search, i) {
      if 0 <= i && i + |s| <= |t| {
        assert OccursAt(t, s, i) ==> forall k :: 0 <= k < |s| ==> t[i..i + |s|][k] == s[k];
        if MatchesAt(title, search, i) {
          assert t[i..i + |s|] == s;
        }
      }
    }
  }

  /** "Buy Milk" is found by "milk", "MILK" and "y mi". */
  lemma BuyMilkExamples()
    ensures ContainsInsensitive("Buy Milk", "milk")
    ensures ContainsInsensitive("Buy Milk", "MILK")
    ensures ContainsInsensitive("Buy Milk", "y mi")
  {
    FoundAt("Buy Milk", "milk", 4);
    FoundAt("Buy Milk", "MILK", 4);
    FoundAt("Buy Milk", "y mi", 2);
  }

  lemma FoundAt(title: string, search: string, i: nat)
    requires i + |search| <= |title|
    requires LowerStr(title)[i..i + |search|] == LowerStr(search)
    ensures ContainsInsensitive(title, search)
  {
    HasInfixIff(LowerStr(title), LowerStr(search));
    assert OccursAt(LowerStr(title), LowerStr(search), i);
  }
}
