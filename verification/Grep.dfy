/** The regular-expression matcher of grep, against what its patterns mean. */
module Grep {

  /** A C string's character, '\0' at its end. */
  function At(s: string, i: nat): char
    requires i <= |s|
  {
    if i < |s| then s[i] else '\0'
  }

  ghost predicate CString(s: string) { forall i :: 0 <= i < |s| ==> s[i] != '\0' }

  // ----- meaning -----

  datatype Item = One(c: char) | Many(c: char) | End

  predicate Accepts(c: char, x: char) { c == '.' || c == x }

  /** A pattern without its leading '^', as a list of items. */
  function Items(re: string): (r: seq<Item>)
    ensures re == [] ==> r == []
  {
    if re == [] then []
    else if |re| > 1 && re[1] == '*' then [Many(re[0])] + Items(re[2..])
    else if re == "$" then [End]
    else [One(re[0])] + Items(re[1..])
  }

  predicate Fits(item: Item, part: string) {
    match item
    case One(c) => |part| == 1 && Accepts(c, part[0])
    case Many(c) => forall i :: 0 <= i < |part| ==> Accepts(c, part[i])
    case End => part == []
  }

  function Joined(parts: seq<string>): string { if parts == [] then [] else parts[0] + Joined(parts[1..]) }

  /** The text begins with parts that fit the items one by one; with an End item they are
      the whole text. */
  ghost predicate Split(items: seq<Item>, text: string, parts: seq<string>) {
    |parts| == |items| && Joined(parts) <= text && (End in items ==> Joined(parts) == text)
    && forall i :: 0 <= i < |items| ==> Fits(items[i], parts[i])
  }

  ghost predicate Begins(items: seq<Item>, text: string) { exists parts :: Split(items, text, parts) }

  /** What a whole pattern means for a line. */
  ghost predicate Means(re: string, text: string) {
    if re != [] && re[0] == '^' then Begins(Items(re[1..]), text)
    else exists k :: 0 <= k <= |text| && Begins(Items(re), text[k..])
  }

  // ----- the meaning, item by item -----

  lemma BeginsNone(text: string)
    ensures Begins([], text)
  {
    assert Split([], text, []);
  }

  lemma BeginsEnd(text: string)
    ensures Begins([End], text) <==> text == []
  {
    if text == [] {
      var parts: seq<string> := [[]];
      assert parts[1..] == [] && Joined(parts) == [];
      assert Split([End], text, parts);
    }
    if Begins([End], text) {
      var parts :| Split([End], text, parts);
      assert End in [End] && Fits([End][0], parts[0]) && parts[1..] == [] && Joined(parts) == parts[0] + Joined(parts[1..]);
    }
  }

  /** The first item takes the first part. */
  lemma BeginsCons(item: Item, items: seq<Item>, text: string, k: nat)
    requires k <= |text| && Fits(item, text[..k]) && Begins(items, text[k..]) && item != End
    ensures Begins([item] + items, text)
  {
    var parts :| Split(items, text[k..], parts);
    var all := [text[..k]] + parts;
    assert all[1..] == parts && Joined(all) == text[..k] + Joined(parts) && text == text[..k] + text[k..];
    assert End in [item] + items <==> End in items;
    assert Split([item] + items, text, all);
  }

  lemma BeginsTail(item: Item, items: seq<Item>, text: string) returns (k: nat)
    requires Begins([item] + items, text) && item != End
    ensures k <= |text| && Fits(item, text[..k]) && Begins(items, text[k..])
  {
    var all := [item] + items;
    var parts :| Split(all, text, parts);
    k := |parts[0]|;
    var rest := parts[1..];
    assert Joined(parts) == parts[0] + Joined(rest) && all[0] == item;
    assert text[..k] == parts[0];
    forall i | 0 <= i < |items| ensures Fits(items[i], rest[i]) {
      assert all[i + 1] == items[i] && parts[i + 1] == rest[i];
    }
    assert End in all <==> End in items;
    assert Split(items, text[k..], rest);
  }

  // ----- the matcher -----

  /** matchhere: does re match at the beginning of text? */
  method MatchHere(re: string, text: string) returns (r: bool)
    requires CString(re) && CString(text)
    ensures r <==> Begins(Items(re), text)
    decreases |re|, 1
  {
    if At(re, 0) == '\0' {
      BeginsNone(text);
      return true;
    }
    if |re| > 1 && re[1] == '*' {
      r := MatchStar(re[0], re[2..], text);
      return;
    }
    if At(re, 0) == '$' && At(re, 1) == '\0' {
      assert re == "$";
      BeginsEnd(text);
      return At(text, 0) == '\0';
    }
    assert re[0] == '$' ==> |re| > 1;
    assert Items(re) == [One(re[0])] + Items(re[1..]);
    if At(text, 0) != '\0' && (re[0] == '.' || re[0] == At(text, 0)) {
      r := MatchHere(re[1..], text[1..]);
      OneItem(re[0], Items(re[1..]), text);
      return;
    }
    OneItem(re[0], Items(re[1..]), text);
    r := false;
  }

  /** matchstar: does c*re match at the beginning of text? */
  method MatchStar(c: char, re: string, text: string) returns (r: bool)
    requires CString(re) && CString(text)
    ensures r <==> Begins([Many(c)] + Items(re), text)
    decreases |re| + 1, 0
  {
    var k := 0;
    while true
      invariant 0 <= k <= |text| && Fits(Many(c), text[..k])
      invariant forall j :: 0 <= j < k ==> !Begins(Items(re), text[j..])
      decreases |text| - k
    {
      r := MatchHere(re, text[k..]);
      if r {
        BeginsCons(Many(c), Items(re), text, k);
        return;
      }
      if !(At(text, k) != '\0' && (At(text, k) == c || c == '.')) {
        NoMore(c, Items(re), text, k);
        return;
      }
      k := k + 1;
    }
  }

  lemma OneItem(c: char, items: seq<Item>, text: string)
    ensures Begins([One(c)] + items, text) <==> text != [] && Accepts(c, text[0]) && Begins(items, text[1..])
  {
    if text != [] && Accepts(c, text[0]) && Begins(items, text[1..]) {
      BeginsCons(One(c), items, text, 1);
    }
    if Begins([One(c)] + items, text) {
      var k := BeginsTail(One(c), items, text);
    }
  }

  lemma AcceptsAt(c: char, text: string, j: nat, k: nat)
    requires j <= |text| && Fits(Many(c), text[..j])
    ensures k < j ==> Accepts(c, text[k])
  {
    if k < j {
      assert text[..j][k] == text[k];
    }
  }

  lemma NoMore(c: char, items: seq<Item>, text: string, k: nat)
    requires k <= |text| && (k < |text| ==> !Accepts(c, text[k])) && forall j :: 0 <= j <= k ==> !Begins(items, text[j..])
    ensures !Begins([Many(c)] + items, text)
  {
    if Begins([Many(c)] + items, text) {
      var j := BeginsTail(Many(c), items, text);
      AcceptsAt(c, text, j, k);
    }
  }

  /** match: does re match anywhere in text, or at its beginning after a '^'? */
  method Match(re: string, text: string) returns (r: bool)
    requires CString(re) && CString(text)
    ensures r <==> Means(re, text)
  {
    if At(re, 0) == '^' {
      r := MatchHere(re[1..], text);
      return;
    }
    var k := 0;
    while true
      invariant 0 <= k <= |text| && forall j :: 0 <= j < k ==> !Begins(Items(re), text[j..])
      decreases |text| - k
    {
      r := MatchHere(re, text[k..]);
      if r {
        return;
      }
      if At(text, k) == '\0' {
        assert k == |text|;
        return;
      }
      k := k + 1;
    }
  }
}
