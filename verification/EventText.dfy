/** The text form of an event and its reading: CalaosEvent::toString (src/bin/calaos_server/EventManager.cpp:
    244-260), Utils::parseParamsItemList (src/lib/Utils.cpp:36-61), url_encode, url_decode, htoi and split
    (src/lib/StringUtils.cpp:44-83, 119-135, 193-221). Strings are bytes, any bytes. */
module EventText {
  import opened Bytes

  type Text = seq<Byte>

  const SPACE: Byte := 32
  const PERCENT: Byte := 37
  const COLON: Byte := 58

  // ----- url_encode and url_decode -----

  predicate Plain(b: Byte) { 97 <= b <= 122 || 65 <= b <= 90 || 48 <= b <= 57 || b == 95 }

  function HexDigit(n: int): Byte
    requires 0 <= n < 16
  {
    if n < 10 then 48 + n else 55 + n
  }

  predicate IsHex(b: Byte) { 48 <= b <= 57 || 65 <= b <= 70 || 97 <= b <= 102 }

  function HexValue(b: Byte): int
    requires IsHex(b)
  {
    if b <= 57 then b - 48 else if b <= 70 then b - 55 else b - 87
  }

  function EncodeByte(b: Byte): Text { if Plain(b) then [b] else [PERCENT, HexDigit(b / 16), HexDigit(b % 16)] }

  function Encode(s: Text): Text { if s == [] then [] else EncodeByte(s[0]) + Encode(s[1..]) }

  predicate Escaped(s: Text) { |s| >= 3 && s[0] == PERCENT && IsHex(s[1]) && IsHex(s[2]) }

  function EscapedByte(s: Text): Byte
    requires Escaped(s)
  {
    HexValue(s[1]) * 16 + HexValue(s[2])
  }

  function Decode(s: Text): Text {
    if s == [] then []
    else if Escaped(s) then [EscapedByte(s)] + Decode(s[3..])
    else [s[0]] + Decode(s[1..])
  }

  lemma DecodeByte(b: Byte, rest: Text)
    ensures Decode(EncodeByte(b) + rest) == [b] + Decode(rest)
  {
    var s := EncodeByte(b) + rest;
    if Plain(b) {
      assert s[1..] == rest && !Escaped(s);
    } else {
      assert s[0] == PERCENT && s[1] == HexDigit(b / 16) && s[2] == HexDigit(b % 16) && s[3..] == rest;
    }
  }

  /** Decoding takes back what encoding did, for any bytes. */
  lemma {:induction false} DecodeEncode(s: Text)
    ensures Decode(Encode(s)) == s
  {
    if s != [] {
      DecodeEncode(s[1..]);
      DecodeByte(s[0], Encode(s[1..]));
      assert s == [s[0]] + s[1..];
    }
  }

  /** An encoded text holds letters, digits, underscores and percent signs only. */
  lemma {:induction false} EncodeIsPlain(s: Text)
    ensures forall b <- Encode(s) :: Plain(b) || b == PERCENT
    ensures Encode(s) == [] <==> s == []
  {
    if s != [] {
      EncodeIsPlain(s[1..]);
    }
  }

  lemma {:induction false} DecodeEmpty(s: Text)
    ensures Decode(s) == [] <==> s == []
  {
  }

  method UrlEncode(str: Text) returns (ret: Text)
    ensures ret == Encode(str)
  {
    ret := [];
    for i := 0 to |str|
      invariant ret + Encode(str[i..]) == Encode(str)
    {
      assert str[i..][1..] == str[i + 1..];
      Assoc(ret, EncodeByte(str[i]), Encode(str[i + 1..]));
      if Plain(str[i]) {
        ret := ret + [str[i]];
      } else {
        ret := ret + [PERCENT, HexDigit(str[i] / 16), HexDigit(str[i] % 16)];
      }
    }
    assert str[|str|..] == [];
  }

  method UrlDecode(str: Text) returns (ret: Text)
    ensures ret == Decode(str)
  {
    ret := [];
    var i := 0;
    while i < |str|
      invariant i <= |str|
      invariant ret + Decode(str[i..]) == Decode(str)
    {
      assert str[i..][1..] == str[i + 1..];
      if i + 2 < |str| && str[i] == PERCENT && IsHex(str[i + 1]) && IsHex(str[i + 2]) {
        assert str[i..][3..] == str[i + 3..];
        assert Escaped(str[i..]);
        var b := HexValue(str[i + 1]) * 16 + HexValue(str[i + 2]);
        Assoc(ret, [b], Decode(str[i + 3..]));
        ret := ret + [b];
        i := i + 3;
      } else {
        assert !Escaped(str[i..]);
        Assoc(ret, [str[i]], Decode(str[i + 1..]));
        ret := ret + [str[i]];
        i := i + 1;
      }
    }
    assert str[i..] == [];
  }

  // ----- the same in characters -----

  const UPPER: string := "0123456789ABCDEF"
  const LOWER: string := "0123456789abcdef"

  /** Bytes as the characters they are in ASCII. */
  function Shown(s: Text): (t: string)
    ensures |t| == |s|
  {
    seq(|s|, i requires 0 <= i < |s| => s[i] as char)
  }

  /** Letters, digits and underscores stay as they are; any other byte becomes a percent sign and its two digits,
      in upper case. */
  lemma EncodedByteIs(b: Byte)
    ensures var c := b as char;
            Shown(Encode([b])) == if 'a' <= c <= 'z' || 'A' <= c <= 'Z' || '0' <= c <= '9' || c == '_' then [c]
                                  else ['%', UPPER[b / 16], UPPER[b % 16]]
  {
    assert Encode([b]) == EncodeByte(b);
    if !Plain(b) {
      DigitIs(b / 16);
      DigitIs(b % 16);
    }
  }

  lemma DigitIs(n: int)
    requires 0 <= n < 16
    ensures HexDigit(n) as char == UPPER[n]
  {
  }

  predicate IsDigitOf(c: char, n: int)
    requires 0 <= n < 16
  {
    c == UPPER[n] || c == LOWER[n]
  }

  /** An escape, its digits in either case. */
  predicate IsEscape(s: Text, n: Byte) {
    |s| >= 3 && s[0] as char == '%' && IsDigitOf(s[1] as char, n / 16) && IsDigitOf(s[2] as char, n % 16)
  }

  lemma DigitValue(b: Byte, n: int)
    requires 0 <= n < 16
    ensures IsDigitOf(b as char, n) <==> IsHex(b) && HexValue(b) == n
  {
  }

  lemma HexRange(b: Byte)
    requires IsHex(b)
    ensures 0 <= HexValue(b) < 16
  {
  }

  lemma TwoDigits(high: int, low: int)
    requires 0 <= high < 16 && 0 <= low < 16
    ensures (high * 16 + low) / 16 == high && (high * 16 + low) % 16 == low
  {
  }

  lemma EscapeIs(s: Text, n: Byte)
    ensures IsEscape(s, n) <==> Escaped(s) && EscapedByte(s) == n
  {
    if |s| >= 3 {
      DigitValue(s[1], n / 16);
      DigitValue(s[2], n % 16);
      hide IsDigitOf, HexValue;
      if Escaped(s) {
        HexRange(s[1]);
        HexRange(s[2]);
        TwoDigits(HexValue(s[1]), HexValue(s[2]));
      }
    }
  }

  /** Decoding turns an escape, whatever the case of its digits, into its byte and leaves any other byte as it is. */
  lemma DecodedByteIs(s: Text, n: Byte)
    requires s != []
    ensures IsEscape(s, n) ==> Decode(s) == [n] + Decode(s[3..])
    ensures (forall m: Byte :: !IsEscape(s, m)) ==> Decode(s) == [s[0]] + Decode(s[1..])
  {
    EscapeIs(s, n);
    if Escaped(s) {
      EscapeIs(s, EscapedByte(s));
    }
    hide IsEscape, EscapedByte, Escaped;
  }

  // ----- split -----

  function Skip(s: Text, d: set<Byte>): Text { if s != [] && s[0] in d then Skip(s[1..], d) else s }

  function TokenLength(s: Text, d: set<Byte>): (n: nat)
    ensures n <= |s|
  {
    if s != [] && s[0] !in d then 1 + TokenLength(s[1..], d) else 0
  }

  /** The tokens between delimiters; the max-th one, when there is a max, is all the rest. */
  function Tokens(s: Text, d: set<Byte>, max: nat, counter: nat): seq<Text>
    decreases |s|
  {
    var t := Skip(s, d);
    SkipShorter(s, d);
    if t == [] then []
    else if max > 0 && counter + 1 >= max then [t]
    else
      var n := TokenLength(t, d);
      [t[..n]] + Tokens(t[n..], d, max, counter + 1)
  }

  lemma {:induction false} SkipShorter(s: Text, d: set<Byte>)
    ensures |Skip(s, d)| <= |s|
    ensures Skip(s, d) != [] ==> Skip(s, d)[0] !in d
  {
    if s != [] && s[0] in d {
      SkipShorter(s[1..], d);
    }
  }

  function Padded(tokens: seq<Text>, max: nat): seq<Text>
    decreases max - |tokens|
  {
    if |tokens| < max then Padded(tokens + [[]], max) else tokens
  }

  function Split(s: Text, d: set<Byte>, max: nat): seq<Text> { Padded(Tokens(s, d, max, 0), max) }

  /** find_first_not_of(delimiters, from), the length of the text standing for npos. */
  method FindFirstNotOf(s: Text, d: set<Byte>, from: nat) returns (pos: nat)
    requires from <= |s|
    ensures from <= pos <= |s| && s[pos..] == Skip(s[from..], d)
  {
    pos := from;
    while pos < |s| && s[pos] in d
      invariant from <= pos <= |s| && Skip(s[pos..], d) == Skip(s[from..], d)
    {
      assert s[pos..][1..] == s[pos + 1..];
      pos := pos + 1;
    }
  }

  method FindFirstOf(s: Text, d: set<Byte>, from: nat) returns (pos: nat)
    requires from <= |s|
    ensures from <= pos <= |s| && pos - from == TokenLength(s[from..], d)
  {
    pos := from;
    while pos < |s| && s[pos] !in d
      invariant from <= pos <= |s| && pos - from + TokenLength(s[pos..], d) == TokenLength(s[from..], d)
    {
      assert s[pos..][1..] == s[pos + 1..];
      pos := pos + 1;
    }
  }

  /** One turn of the loop below. */
  lemma TokensStep(left: Text, d: set<Byte>, max: nat, counter: nat)
    ensures var t := Skip(left, d);
            var n := TokenLength(t, d);
            Tokens(left, d, max, counter) ==
            (if t == [] then [] else if max > 0 && counter + 1 >= max then [t]
             else [t[..n]] + Tokens(t[n..], d, max, counter + 1))
  {
  }

  method SplitText(str: Text, delimiters: set<Byte>, max: nat) returns (tokens: seq<Text>)
    ensures tokens == Split(str, delimiters, max)
  {
    hide Tokens, Skip, TokenLength, Padded;
    tokens := [];
    ghost var left, rest := str, Tokens(str, delimiters, max, 0);
    var lastPos := FindFirstNotOf(str, delimiters, 0);
    var pos := FindFirstOf(str, delimiters, lastPos);
    assert str[0..] == str;
    var counter := 0;
    while pos < |str| || lastPos < |str|
      invariant lastPos <= pos <= |str|
      invariant str[lastPos..] == Skip(left, delimiters)
      invariant pos - lastPos == TokenLength(str[lastPos..], delimiters)
      invariant rest == Tokens(left, delimiters, max, counter)
      invariant tokens + rest == Tokens(str, delimiters, max, 0)
      decreases |str| - lastPos, |left|
    {
      TokensStep(left, delimiters, max, counter);
      SkipShorter(left, delimiters);
      if counter + 1 >= max && max > 0 {
        tokens := tokens + [str[lastPos..]];
        rest := [];
        break;
      }
      NotEmpty(str[lastPos..], delimiters);
      assert str[lastPos..][..pos - lastPos] == str[lastPos..pos] && str[lastPos..][pos - lastPos..] == str[pos..];
      rest := Tokens(str[pos..], delimiters, max, counter + 1);
      assert tokens + ([str[lastPos..pos]] + rest) == tokens + [str[lastPos..pos]] + rest;
      tokens := tokens + [str[lastPos..pos]];
      left := str[pos..];
      lastPos := FindFirstNotOf(str, delimiters, pos);
      pos := FindFirstOf(str, delimiters, lastPos);
      counter := counter + 1;
    }
    TokensStep(left, delimiters, max, counter);
    assert rest == [] && tokens + rest == tokens;
    tokens := Pad(tokens, max);
  }

  lemma NotEmpty(t: Text, d: set<Byte>)
    requires t != [] && t[0] !in d
    ensures TokenLength(t, d) > 0
  {
  }

  method Pad(tokens: seq<Text>, max: nat) returns (padded: seq<Text>)
    ensures padded == Padded(tokens, max)
  {
    padded := tokens;
    while |padded| < max
      invariant Padded(padded, max) == Padded(tokens, max)
      decreases max - |padded|
    {
      padded := padded + [[]];
    }
  }

  // ----- tokens of what was joined -----

  predicate Free(s: Text, d: set<Byte>) { forall c <- s :: c !in d }

  lemma {:induction false} TokenAlone(s: Text, d: set<Byte>, rest: Text)
    requires Free(s, d) && (rest == [] || rest[0] in d)
    ensures TokenLength(s + rest, d) == |s|
  {
    if s == [] {
      assert s + rest == rest;
    } else {
      assert (s + rest)[1..] == s[1..] + rest;
      TokenAlone(s[1..], d, rest);
    }
  }

  /** A token without the delimiter in it, at the head of what is split. */
  lemma TokensHead(s: Text, d: set<Byte>, rest: Text, max: nat, counter: nat)
    requires Free(s, d) && s != [] && (rest == [] || rest[0] in d) && (max == 0 || counter + 1 < max)
    ensures Tokens(s + rest, d, max, counter) == [s] + Tokens(rest, d, max, counter + 1)
  {
    var t := s + rest;
    assert t[0] == s[0] && s[0] !in d by {
      assert s[0] in s;
    }
    TokenAlone(s, d, rest);
    assert t[..|s|] == s && t[|s|..] == rest;
  }

  /** Delimiters at the head are skipped. */
  lemma TokensSkip(c: Byte, d: set<Byte>, rest: Text, max: nat, counter: nat)
    requires c in d
    ensures Tokens([c] + rest, d, max, counter) == Tokens(rest, d, max, counter)
  {
    assert ([c] + rest)[1..] == rest;
    assert Skip([c] + rest, d) == Skip(rest, d);
  }

  lemma TokensNone(d: set<Byte>, max: nat, counter: nat)
    ensures Tokens([], d, max, counter) == []
  {
  }

  /** What is left of a text without its delimiters. */
  function Kept(s: Text, d: set<Byte>): Text {
    if s == [] then [] else (if s[0] in d then [] else [s[0]]) + Kept(s[1..], d)
  }

  function Joined(tokens: seq<Text>): Text { if tokens == [] then [] else tokens[0] + Joined(tokens[1..]) }

  lemma {:induction false} SkipKeeps(s: Text, d: set<Byte>)
    ensures Kept(Skip(s, d), d) == Kept(s, d)
  {
    if s != [] && s[0] in d {
      SkipKeeps(s[1..], d);
    }
  }

  lemma {:induction false} TokenKept(s: Text, d: set<Byte>)
    ensures var n := TokenLength(s, d); Kept(s, d) == s[..n] + Kept(s[n..], d) && Free(s[..n], d)
  {
    var n := TokenLength(s, d);
    if n > 0 {
      TokenKept(s[1..], d);
      assert s[..n] == [s[0]] + s[1..][..n - 1] && s[n..] == s[1..][n - 1..];
    }
  }

  /** Split without a maximum gives texts that are not empty and hold no delimiter, and together they are all the
      rest of the text, in order. */
  lemma {:induction false} TokensAre(s: Text, d: set<Byte>, counter: nat)
    ensures var ts := Tokens(s, d, 0, counter);
            Joined(ts) == Kept(s, d) && forall t <- ts :: t != [] && Free(t, d)
    decreases |s|
  {
    var t := Skip(s, d);
    SkipShorter(s, d);
    SkipKeeps(s, d);
    if t != [] {
      var n := TokenLength(t, d);
      TokenKept(t, d);
      NotEmpty(t, d);
      TokensAre(t[n..], d, counter + 1);
    }
  }

  /** Split with a maximum gives exactly as many. */
  lemma SplitSize(s: Text, d: set<Byte>, max: nat)
    requires max > 0
    ensures |Split(s, d, max)| == max
  {
    AtMost(s, d, max, 0);
    PaddedSize(Tokens(s, d, max, 0), max);
  }

  lemma {:induction false} AtMost(s: Text, d: set<Byte>, max: nat, counter: nat)
    requires counter < max
    ensures |Tokens(s, d, max, counter)| <= max - counter
    decreases |s|
  {
    var t := Skip(s, d);
    SkipShorter(s, d);
    if t != [] && counter + 1 < max {
      NotEmpty(t, d);
      AtMost(t[TokenLength(t, d)..], d, max, counter + 1);
    }
  }

  lemma {:induction false} PaddedSize(tokens: seq<Text>, max: nat)
    requires |tokens| <= max
    ensures |Padded(tokens, max)| == max && tokens <= Padded(tokens, max)
    decreases max - |tokens|
  {
    if |tokens| < max {
      PaddedSize(tokens + [[]], max);
    }
  }

  // ----- one parameter -----

  datatype Pair = Pair(key: Text, value: Text)

  function Printed(p: Pair): Text { Encode(p.key) + [COLON] + Encode(p.value) }

  lemma PrintedIsFree(p: Pair)
    ensures Free(Printed(p), {SPACE}) && Printed(p) != []
    ensures Free(Encode(p.key), {COLON}) && Free(Encode(p.value), {COLON})
  {
    EncodeIsPlain(p.key);
    EncodeIsPlain(p.value);
  }

  lemma PadTwo(tokens: seq<Text>)
    requires |tokens| <= 2
    ensures Padded(tokens, 2) == if tokens == [] then [[], []] else if |tokens| == 1 then tokens + [[]] else tokens
  {
    if tokens == [] {
      assert tokens + [[]] + [[]] == [[], []];
      assert Padded(tokens + [[]], 2) == tokens + [[]] + [[]];
    } else if |tokens| == 1 {
      assert Padded(tokens + [[]], 2) == tokens + [[]];
    }
  }

  /** The tokens of the value half, seen as the last one. */
  lemma LastToken(v: Text, d: set<Byte>, counter: nat)
    requires Free(v, d)
    ensures Tokens(v, d, 2, counter) == if v == [] then [] else [v]
  {
    if v == [] {
      TokensNone(d, 2, counter);
    } else {
      assert v[0] in v;
      if counter == 0 {
        assert v + [] == v;
        TokensHead(v, d, [], 2, 0);
        TokensNone(d, 2, 1);
      } else {
        assert Skip(v, d) == v;
      }
    }
  }

  /** What split makes of a printed parameter: its two halves, unless the key is empty and the value is not. */
  lemma SplitPrinted(p: Pair)
    ensures Split(Printed(p), {COLON}, 2)
         == if p.key == [] && p.value != [] then [Encode(p.value), []] else [Encode(p.key), Encode(p.value)]
  {
    var k, v := Encode(p.key), Encode(p.value);
    EncodeIsPlain(p.key);
    EncodeIsPlain(p.value);
    PrintedIsFree(p);
    hide Encode, Tokens, Padded, Free;
    assert Printed(p) == k + ([COLON] + v);
    if k == [] {
      assert Printed(p) == [COLON] + v;
      TokensSkip(COLON, {COLON}, v, 2, 0);
      LastToken(v, {COLON}, 0);
    } else {
      TokensHead(k, {COLON}, [COLON] + v, 2, 0);
      TokensSkip(COLON, {COLON}, v, 2, 1);
      LastToken(v, {COLON}, 1);
    }
    PadTwo(Tokens(Printed(p), {COLON}, 2, 0));
  }

  // ----- the whole event -----

  /** The parameters after the type, in the order of the map. */
  function Params(items: seq<Pair>): Text {
    if items == [] then [] else [SPACE] + Printed(items[0]) + Params(items[1..])
  }

  function ToText(kind: Text, items: seq<Pair>): Text { kind + Params(items) }

  lemma Appended(ret: Text, key: Text, value: Text)
    ensures ret + [SPACE] + key + [COLON] + value == ret + ([SPACE] + (key + [COLON] + value))
  {
  }

  method ToString(kind: Text, items: seq<Pair>) returns (ret: Text)
    ensures ret == ToText(kind, items)
  {
    hide Encode;
    ret := kind;
    for i := 0 to |items|
      invariant ret + Params(items[i..]) == ToText(kind, items)
    {
      assert items[i..][1..] == items[i + 1..];
      var key := UrlEncode(items[i].key);
      var value := UrlEncode(items[i].value);
      Assoc(ret, [SPACE] + Printed(items[i]), Params(items[i + 1..]));
      Appended(ret, key, value);
      ret := ret + [SPACE] + key + [COLON] + value;
    }
    assert items[|items|..] == [];
  }

  /** A Params of the program: a std::map. */
  type Item = map<Text, Text>

  /** The loop of parseParamsItemList: a key seen twice starts the next item. */
  function Collect(tokens: seq<Text>, item: Item): seq<Item>
    decreases |tokens|
  {
    if tokens == [] then (if item == map[] then [] else [item])
    else
      var tk := Split(tokens[0], {COLON}, 2);
      if |tk| != 2 then Collect(tokens[1..], item)
      else if tk[0] in item then [item] + Collect(tokens[1..], map[tk[0] := tk[1]])
      else Collect(tokens[1..], item[tk[0] := tk[1]])
  }

  function Parsed(l: Text, startAt: nat): seq<Item> {
    var tokens := Split(l, {SPACE}, 0);
    Collect(if startAt <= |tokens| then tokens[startAt..] else [], map[])
  }

  method ParseParamsItemList(l: Text, startAt: nat) returns (res: seq<Item>)
    ensures res == Parsed(l, startAt)
  {
    hide Split;
    var tokens := SplitText(l, {SPACE}, 0);
    res := [];
    var item: Item := map[];
    var i := startAt;
    assert startAt < |tokens| ==> tokens[startAt..] == tokens[i..];
    while i < |tokens|
      invariant startAt <= i && (startAt <= |tokens| ==> i <= |tokens|)
      invariant startAt <= |tokens| ==> res + Collect(tokens[i..], item) == Collect(tokens[startAt..], map[])
      invariant startAt > |tokens| ==> res == [] && item == map[]
    {
      assert tokens[i..][1..] == tokens[i + 1..];
      var tk := SplitText(tokens[i], {COLON}, 2);
      i := i + 1;
      if |tk| == 2 {
        if tk[0] in item {
          Assoc(res, [item], Collect(tokens[i..], map[tk[0] := tk[1]]));
          res := res + [item];
          item := map[];
        }
        item := item[tk[0] := tk[1]];
      }
    }
    assert startAt <= |tokens| ==> tokens[i..] == [];
    if |item| > 0 {
      res := res + [item];
    }
  }

  // ----- the round trip -----

  function AllPrinted(items: seq<Pair>): seq<Text> { seq(|items|, i requires 0 <= i < |items| => Printed(items[i])) }

  lemma {:induction false} TokensOfParams(items: seq<Pair>, counter: nat)
    ensures Tokens(Params(items), {SPACE}, 0, counter) == AllPrinted(items)
    ensures Params(items) == [] || Params(items)[0] == SPACE
    decreases |items|
  {
    if items == [] {
      TokensNone({SPACE}, 0, counter);
    } else {
      var p, rest := Printed(items[0]), Params(items[1..]);
      TokensOfParams(items[1..], counter + 1);
      PrintedIsFree(items[0]);
      Assoc([SPACE], p, rest);
      hide Printed, Free, Params;
      TokensSkip(SPACE, {SPACE}, p + rest, 0, counter);
      TokensHead(p, {SPACE}, rest, 0, counter);
      assert [p] + AllPrinted(items[1..]) == AllPrinted(items);
    }
  }

  lemma TokensOfText(kind: Text, items: seq<Pair>)
    requires kind != [] && Free(kind, {SPACE})
    ensures Split(ToText(kind, items), {SPACE}, 0) == [kind] + AllPrinted(items)
  {
    TokensOfParams(items, 1);
    hide Params;
    TokensHead(kind, {SPACE}, Params(items), 0, 0);
  }

  predicate DistinctKeys(items: seq<Pair>) { forall i, j | 0 <= i < j < |items| :: items[i].key != items[j].key }

  /** The one shape of parameter that does not survive. */
  predicate Nameless(p: Pair) { p.key == [] && p.value != [] }

  function EncodedAll(items: seq<Pair>, item: Item): Item
    decreases |items|
  {
    if items == [] then item else EncodedAll(items[1..], item[Encode(items[0].key) := Encode(items[0].value)])
  }

  lemma EncodeInjective(a: Text, b: Text)
    requires Encode(a) == Encode(b)
    ensures a == b
  {
    DecodeEncode(a);
    DecodeEncode(b);
  }

  lemma {:induction false} CollectGood(items: seq<Pair>, item: Item)
    requires DistinctKeys(items) && (forall p <- items :: !Nameless(p) && Encode(p.key) !in item)
    ensures Collect(AllPrinted(items), item)
         == if EncodedAll(items, item) == map[] then [] else [EncodedAll(items, item)]
    decreases |items|
  {
    if items != [] {
      var p, rest := items[0], items[1..];
      assert p in items;
      SplitPrinted(p);
      assert AllPrinted(items)[1..] == AllPrinted(rest) && AllPrinted(items)[0] == Printed(p);
      forall q <- rest
        ensures !Nameless(q) && Encode(q.key) !in item[Encode(p.key) := Encode(p.value)]
      {
        assert q in items;
        if Encode(q.key) == Encode(p.key) {
          EncodeInjective(q.key, p.key);
        }
      }
      hide Split, Printed, Encode, Nameless;
      CollectGood(rest, item[Encode(p.key) := Encode(p.value)]);
    }
  }

  lemma CollectFirst(items: seq<Pair>, item: Item)
    requires items != [] && !Nameless(items[0])
    ensures var k, v := Encode(items[0].key), Encode(items[0].value);
            Collect(AllPrinted(items), item) == (if k in item then [item] + Collect(AllPrinted(items[1..]), map[k := v])
                                                 else Collect(AllPrinted(items[1..]), item[k := v]))
  {
    SplitPrinted(items[0]);
    assert AllPrinted(items)[1..] == AllPrinted(items[1..]) && AllPrinted(items)[0] == Printed(items[0]);
    hide Split, Printed, Encode;
  }

  /** A name that is already there begins the next item, and the parameters after it are read as if they were alone. */
  lemma {:induction false} NextItem(items: seq<Pair>, more: seq<Pair>, item: Item)
    requires DistinctKeys(items) && forall p <- items :: !Nameless(p) && Encode(p.key) !in item
    requires more != [] && !Nameless(more[0]) && Encode(more[0].key) in EncodedAll(items, item)
    ensures Collect(AllPrinted(items + more), item)
         == [EncodedAll(items, item)] + Collect(AllPrinted(more), map[])
    decreases |items|
  {
    hide Collect, Split, Printed, Encode, Nameless;
    if items == [] {
      assert items + more == more;
      CollectFirst(more, item);
      CollectFirst(more, map[]);
    } else {
      var p, rest := items[0], items[1..];
      assert p in items && (items + more)[1..] == rest + more;
      CollectFirst(items + more, item);
      forall q <- rest
        ensures !Nameless(q) && Encode(q.key) !in item[Encode(p.key) := Encode(p.value)]
      {
        assert q in items;
        if Encode(q.key) == Encode(p.key) {
          EncodeInjective(q.key, p.key);
        }
      }
      NextItem(rest, more, item[Encode(p.key) := Encode(p.value)]);
    }
  }

  /** What a reader gets out of an item by decoding its keys and its values. */
  function Decoded(item: Item): set<Pair> { set k | k in item :: Pair(Decode(k), Decode(item[k])) }

  function PairsOf(items: seq<Pair>): set<Pair> { set p | p in items }

  lemma {:induction false} DecodedAll(items: seq<Pair>, item: Item)
    requires DistinctKeys(items) && forall p <- items :: Encode(p.key) !in item
    ensures Decoded(EncodedAll(items, item)) == Decoded(item) + PairsOf(items)
    ensures items != [] ==> EncodedAll(items, item) != map[]
    decreases |items|
  {
    if items != [] {
      var p, rest := items[0], items[1..];
      assert items == [p] + rest && p in items;
      var k, v := Encode(p.key), Encode(p.value);
      var more := item[k := v];
      forall q <- rest
        ensures Encode(q.key) !in more
      {
        assert q in items;
        if Encode(q.key) == k {
          EncodeInjective(q.key, p.key);
        }
      }
      DecodedAll(rest, more);
      DecodeEncode(p.key);
      DecodeEncode(p.value);
      hide Encode, Decode;
      DecodedOne(item, k, v);
      assert PairsOf(items) == {p} + PairsOf(rest);
      assert k in more;
      if rest == [] {
        assert EncodedAll(items, item) == more;
      }
    }
  }

  lemma DecodedOne(item: Item, k: Text, v: Text)
    requires k !in item
    ensures Decoded(item[k := v]) == Decoded(item) + {Pair(Decode(k), Decode(v))}
  {
    hide Decode;
    assert forall j <- item :: item[k := v][j] == item[j];
    assert item[k := v][k] == v;
  }

  /** No value without a name. */
  predicate Named(item: Item) { [] in item ==> item[[]] == [] }

  lemma {:induction false} CollectNamed(items: seq<Pair>, item: Item)
    requires Named(item)
    ensures forall r <- Collect(AllPrinted(items), item) :: Named(r)
    decreases |items|
  {
    if items != [] {
      var rest := items[1..];
      NamedHalves(items[0]);
      assert AllPrinted(items)[1..] == AllPrinted(rest) && AllPrinted(items)[0] == Printed(items[0]);
      var tk := Split(Printed(items[0]), {COLON}, 2);
      hide Split, Printed, Encode;
      if tk[0] in item {
        CollectNamed(rest, map[tk[0] := tk[1]]);
      } else {
        CollectNamed(rest, item[tk[0] := tk[1]]);
      }
    }
  }

  lemma NamedHalves(p: Pair)
    ensures var tk := Split(Printed(p), {COLON}, 2); |tk| == 2 && (tk[0] == [] ==> tk[1] == [])
  {
    SplitPrinted(p);
    EncodeIsPlain(p.key);
    EncodeIsPlain(p.value);
    hide Split, Printed;
  }

  lemma NamedDecoded(item: Item)
    requires Named(item)
    ensures forall p <- Decoded(item) :: !Nameless(p)
  {
    forall p <- Decoded(item)
      ensures !Nameless(p)
    {
      var k :| k in item && p == Pair(Decode(k), Decode(item[k]));
      DecodeEmpty(k);
      DecodeEmpty(item[k]);
    }
  }

  /** The parameters of an event, whatever their bytes, come back from its text exactly, as the one item there
      is, if and only if none of them has a value without a name; an event without parameters gives no item. */
  lemma RoundTrip(kind: Text, items: seq<Pair>)
    requires kind != [] && Free(kind, {SPACE}) && DistinctKeys(items)
    ensures var res := Parsed(ToText(kind, items), 1);
            && (items == [] ==> res == [])
            && (items != [] ==>
                  (|res| == 1 && Decoded(res[0]) == PairsOf(items) <==> forall p <- items :: !Nameless(p)))
  {
    TokensOfText(kind, items);
    var res := Parsed(ToText(kind, items), 1);
    assert ([kind] + AllPrinted(items))[1..] == AllPrinted(items);
    assert res == Collect(AllPrinted(items), map[]);
    if items != [] {
      if forall p <- items :: !Nameless(p) {
        CollectGood(items, map[]);
        DecodedAll(items, map[]);
        assert Decoded(map[]) == {};
      } else {
        CollectNamed(items, map[]);
        var p :| p in items && Nameless(p);
        if |res| == 1 {
          NamedDecoded(res[0]);
          assert p in PairsOf(items);
        }
      }
    }
  }
}
