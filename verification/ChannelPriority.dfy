/** The list of message channels, printed for its database column and read back. */
module ChannelPriority {
  import opened Wrappers
  import opened GoStrings

  predicate IsBrace(c: char) {
    c == '{' || c == '}'
  }

  // strings.Split(s, ",")
  function Split(s: string): (parts: seq<string>)
    ensures parts != []
    ensures forall k :: 0 <= k < |parts| ==> ',' !in parts[k]
  {
    if s == "" then [""]
    else
      var rest := Split(s[1..]);
      if s[0] == ',' then [""] + rest else [[s[0]] + rest[0]] + rest[1..]
  }

  // strings.Join(parts, ",")
  function Join(parts: seq<string>): string {
    if parts == [] then ""
    else if |parts| == 1 then parts[0]
    else parts[0] + "," + Join(parts[1..])
  }

  function TrimAll(parts: seq<string>): (trimmed: seq<string>)
    ensures |trimmed| == |parts|
  {
    seq(|parts|, i requires 0 <= i < |parts| => TrimSpace(parts[i]))
  }

  // What Value prints, and what Scan reads from it.
  function Printed(names: seq<string>): string {
    if names == [] then "{}" else "{" + Join(names) + "}"
  }

  function Read(s: string): seq<string> {
    TrimAll(Split(Trim(s, IsBrace)))
  }

  method Value(channels: seq<string>) returns (s: string)
    ensures s == Printed(channels)
  {
    if |channels| == 0 {
      return "{}";
    }
    var names: seq<string> := [];
    for i := 0 to |channels|
      invariant names == channels[..i]
    {
      names := names + [channels[i]];
    }
    assert channels[..|channels|] == channels;
    return "{" + Join(names) + "}";
  }

  class MessageChannelPriority {
    var channels: Option<seq<string>>

    constructor ()
      ensures channels == None
    {
      channels := None;
    }

    // `src` is NULL, or the bytes of the column.
    method Scan(src: Option<string>)
      modifies this
      ensures channels == if src.None? then None else Some(Read(src.value))
    {
      hide Trim, TrimSpace, Split;
      if src.None? {
        channels := None;
        return;
      }
      var parts := Split(Trim(src.value, IsBrace));
      var trimmed: seq<string> := [];
      for i := 0 to |parts|
        invariant |trimmed| == i && forall k :: 0 <= k < i ==> trimmed[k] == TrimSpace(parts[k])
      {
        trimmed := trimmed + [TrimSpace(parts[i])];
      }
      assert trimmed == TrimAll(parts);
      channels := Some(trimmed);
    }
  }

  // ------------------------------------------------------------------------ splitting and joining

  lemma {:induction false} JoinOfSplit(s: string)
    ensures Join(Split(s)) == s
  {
    if s != "" {
      JoinOfSplit(s[1..]);
      var rest := Split(s[1..]);
      if s[0] == ',' {
        assert Split(s)[1..] == rest;
        assert s == "" + "," + s[1..];
      } else {
        var parts := [[s[0]] + rest[0]] + rest[1..];
        assert parts[1..] == rest[1..];
        assert s == [s[0]] + s[1..];
        if |rest| > 1 {
          assert [s[0]] + (rest[0] + "," + Join(rest[1..])) == [s[0]] + rest[0] + "," + Join(rest[1..]);
        }
      }
    }
  }

  lemma {:induction false} SplitNoComma(s: string)
    requires ',' !in s
    ensures Split(s) == [s]
  {
    if s != "" {
      assert s[0] in s;
      SplitNoComma(s[1..]);
      assert [s[0]] + s[1..] == s;
    }
  }

  lemma {:induction false} SplitAtComma(s: string, rest: string)
    requires ',' !in s
    ensures Split(s + "," + rest) == [s] + Split(rest)
  {
    var t := s + "," + rest;
    if s == "" {
      assert t[1..] == rest;
    } else {
      assert s[0] in s && t[0] == s[0];
      assert t[1..] == s[1..] + "," + rest;
      SplitAtComma(s[1..], rest);
      var parts := Split(t[1..]);
      assert parts[0] == s[1..] && parts[1..] == Split(rest);
      assert [s[0]] + s[1..] == s;
    }
  }

  lemma {:induction false} SplitOfJoin(parts: seq<string>)
    requires parts != [] && forall k :: 0 <= k < |parts| ==> ',' !in parts[k]
    ensures Split(Join(parts)) == parts
  {
    if |parts| == 1 {
      SplitNoComma(parts[0]);
    } else {
      SplitOfJoin(parts[1..]);
      SplitAtComma(parts[0], Join(parts[1..]));
    }
  }

  // ------------------------------------------------------------------------------- the round trip

  // A name that a printed list can carry.
  predicate Plain(name: string) {
    ',' !in name && TrimSpace(name) == name
  }

  predicate StartsWithBrace(s: string) {
    s != "" && IsBrace(s[0])
  }

  predicate EndsWithBrace(s: string) {
    s != "" && IsBrace(s[|s| - 1])
  }

  // The braces around the list go; more go exactly if the list itself starts or ends with one.
  lemma OuterBraces(s: string)
    ensures !StartsWithBrace(s) && !EndsWithBrace(s) ==> Trim("{" + s + "}", IsBrace) == s
    ensures StartsWithBrace(s) || EndsWithBrace(s) ==> |Trim("{" + s + "}", IsBrace)| < |s|
  {
    var t := "{" + s + "}";
    assert t[1..] == s + "}";
    assert TrimLeft(t, IsBrace) == TrimLeft(s + "}", IsBrace);
    if s == "" {
      assert s + "}" == "}";
    } else if StartsWithBrace(s) {
      TrimmedBoth(s);
    } else {
      assert (s + "}")[0] == s[0];
      TrimmedRight(s);
    }
  }

  lemma TrimmedRight(s: string)
    ensures TrimRight(s + "}", IsBrace) == TrimRight(s, IsBrace)
  {
    assert (s + "}")[..|s|] == s;
  }

  lemma TrimmedBoth(s: string)
    requires StartsWithBrace(s)
    ensures |TrimRight(TrimLeft(s + "}", IsBrace), IsBrace)| < |s|
  {
    var rest := s[1..] + "}";
    assert (s + "}")[1..] == rest;
    assert TrimLeft(s + "}", IsBrace) == TrimLeft(rest, IsBrace);
    hide TrimLeft, TrimRight;
    var l := TrimLeft(rest, IsBrace);
    var r := TrimRight(l, IsBrace);
    if l != "" {
      assert l[|l| - 1] == rest[|s| - 1];
      assert r == l[..|r|] && r != l;
    }
  }

  lemma TrimSpaceIdempotent(s: string)
    ensures TrimSpace(TrimSpace(s)) == TrimSpace(s)
    ensures ',' !in s ==> ',' !in TrimSpace(s)
  {
    var l := TrimLeft(s, IsSpace);
    var r := TrimRight(l, IsSpace);
    hide TrimLeft, TrimRight, IsSpace;
    assert r == l[..|r|];
    assert r != "" ==> r[0] == l[0];
    if ',' !in s {
      forall k | 0 <= k < |r|
        ensures r[k] != ','
      {
        assert r[k] == l[k] == s[|s| - |l| + k];
      }
    }
  }

  lemma {:induction false} TrimAllShrinks(parts: seq<string>)
    ensures |Join(TrimAll(parts))| <= |Join(parts)|
  {
    if |parts| > 1 {
      assert TrimAll(parts)[1..] == TrimAll(parts[1..]);
      TrimAllShrinks(parts[1..]);
    }
  }

  lemma {:induction false} JoinEnds(parts: seq<string>)
    requires parts != []
    ensures StartsWithBrace(Join(parts)) <==> StartsWithBrace(parts[0])
    ensures EndsWithBrace(Join(parts)) <==> EndsWithBrace(parts[|parts| - 1])
  {
    if |parts| > 1 {
      JoinEnds(parts[1..]);
      var tail := Join(parts[1..]);
      var whole := parts[0] + "," + tail;
      assert parts[0] != "" ==> whole[0] == parts[0][0];
      assert parts[0] == "" ==> whole[0] == ',';
      assert tail != "" ==> whole[|whole| - 1] == tail[|tail| - 1];
      assert tail == "" ==> whole[|whole| - 1] == ',';
    }
  }

  /**
   Reading what was printed gives the list back exactly when it is not empty, every name is free of
   commas and surrounding space, and neither the first name starts nor the last name ends with a brace.
   */
  lemma RoundTrip(names: seq<string>)
    ensures Read(Printed(names)) == names <==>
              && names != []
              && (forall k :: 0 <= k < |names| ==> Plain(names[k]))
              && !StartsWithBrace(names[0]) && !EndsWithBrace(names[|names| - 1])
  {
    hide Trim, Split, Join, TrimSpace;
    if names != [] {
      var s := Join(names);
      OuterBraces(s);
      JoinEnds(names);
      var inner := Trim("{" + s + "}", IsBrace);
      if StartsWithBrace(s) || EndsWithBrace(s) {
        JoinOfSplit(inner);
        TrimAllShrinks(Split(inner));
      } else if forall k :: 0 <= k < |names| ==> Plain(names[k]) {
        SplitOfJoin(names);
        assert TrimAll(names) == names;
      } else {
        NotPlainNotRead(names, Split(inner));
      }
    }
  }

  // What is read is plain.
  lemma NotPlainNotRead(names: seq<string>, parts: seq<string>)
    requires exists k :: 0 <= k < |names| && !Plain(names[k])
    requires forall k :: 0 <= k < |parts| ==> ',' !in parts[k]
    ensures TrimAll(parts) != names
  {
    hide TrimSpace;
    forall k | 0 <= k < |parts|
      ensures Plain(TrimAll(parts)[k])
    {
      TrimSpaceIdempotent(parts[k]);
    }
  }

  /** As the database writes it, and reads it. */
  lemma PrintedExample()
    ensures Printed(["EMAIL", "SMS"]) == "{EMAIL,SMS}" && Printed([]) == "{}"
    ensures Read("{EMAIL,SMS}") == ["EMAIL", "SMS"]
  {
    TwoPrinted("EMAIL", "SMS");
    TwoRead();
    hide Join, Split, Trim, TrimSpace, Read, Plain;
    NamesPlain();
    RoundTrip(["EMAIL", "SMS"]);
  }

  lemma TwoPrinted(a: string, b: string)
    ensures Printed([a, b]) == "{" + (a + "," + b) + "}"
  {
    assert [a, b][1..] == [b];
    assert Join([a, b]) == a + "," + Join([b]);
  }

  lemma TwoRead()
    ensures "{" + ("EMAIL" + "," + "SMS") + "}" == "{EMAIL,SMS}"
  {
  }

  lemma NamesPlain()
    ensures Plain("EMAIL") && Plain("SMS")
  {
    hide Plain, TrimSpace;
    PlainName("EMAIL");
    PlainName("SMS");
  }

  lemma PlainName(s: string)
    requires s != "" && !IsSpace(s[0]) && !IsSpace(s[|s| - 1]) && ',' !in s
    ensures Plain(s)
  {
    hide IsSpace;
    assert TrimLeft(s, IsSpace) == s && TrimRight(s, IsSpace) == s;
  }
}
