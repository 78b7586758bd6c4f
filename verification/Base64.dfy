/** src/crypto/encryption.ts: Base64 (section 4 of RFC 4648) and its URL-safe form without padding (section 5). */
module Base64 {
  import opened Basics

  type Byte = b: int | 0 <= b < 256
  type Sextet = v: int | 0 <= v < 64

  // The alphabet.

  function Symbol(v: Sextet): char {
    if v < 26 then ('A' as int + v) as char
    else if v < 52 then ('a' as int + v - 26) as char
    else if v < 62 then ('0' as int + v - 52) as char
    else if v == 62 then '+' else '/'
  }

  function Value(c: char): (r: Option<Sextet>)
    ensures r.Some? ==> Symbol(r.value) == c
    ensures forall v: Sextet :: Symbol(v) == c ==> r == Some(v)
  {
    if 'A' <= c <= 'Z' then Some(c as int - 'A' as int)
    else if 'a' <= c <= 'z' then Some(c as int - 'a' as int + 26)
    else if '0' <= c <= '9' then Some(c as int - '0' as int + 52)
    else if c == '+' then Some(62) else if c == '/' then Some(63) else None
  }

  // Bits regrouped from eights to sixes and back.

  /** Three bytes as four sextets, and back. */
  function Split3(a: Byte, b: Byte, c: Byte): seq<Sextet> {
    [a / 4, a % 4 * 16 + b / 16, b % 16 * 4 + c / 64, c % 64]
  }

  function Join4(a: Sextet, b: Sextet, c: Sextet, d: Sextet): (r: seq<Byte>) {
    var x: Byte, y: Byte, z: Byte := a as int * 4 + b / 16, b as int % 16 * 16 + c / 4, c as int % 4 * 64 + d;
    [x, y, z]
  }

  lemma JoinSplit3(a: Byte, b: Byte, c: Byte)
    ensures var v := Split3(a, b, c); Join4(v[0], v[1], v[2], v[3]) == [a, b, c]
  {}

  lemma SplitJoin4(a: Sextet, b: Sextet, c: Sextet, d: Sextet)
    ensures var r := Join4(a, b, c, d); Split3(r[0], r[1], r[2]) == [a, b, c, d]
  {
    var r := Join4(a, b, c, d);
    assert r[0] / 4 == a && r[0] % 4 == b / 16;
    assert r[1] / 16 == b % 16 && r[1] % 16 == c / 4;
    assert r[2] / 64 == c % 4 && r[2] % 64 == d;
  }

  function Sextets(bytes: seq<Byte>): seq<Sextet> {
    if |bytes| == 0 then []
    else if |bytes| == 1 then Split3(bytes[0], 0, 0)[..2]
    else if |bytes| == 2 then Split3(bytes[0], bytes[1], 0)[..3]
    else Split3(bytes[0], bytes[1], bytes[2]) + Sextets(bytes[3..])
  }

  /** The whole bytes spelled by sextets; bits of an unfinished byte are discarded, one lone sextet is an error. */
  function Bytes(v: seq<Sextet>): Option<seq<Byte>> {
    if |v| == 0 then Some([])
    else if |v| == 1 then None
    else if |v| == 2 then Some(Join4(v[0], v[1], 0, 0)[..1])
    else if |v| == 3 then Some(Join4(v[0], v[1], v[2], 0)[..2])
    else match Bytes(v[4..])
         case None => None
         case Some(rest) => Some(Join4(v[0], v[1], v[2], v[3]) + rest)
  }

  /** No bit set beyond the last whole byte. */
  predicate Canonical(v: seq<Sextet>) {
    && |v| % 4 != 1
    && (|v| % 4 == 2 ==> v[|v| - 1] % 16 == 0)
    && (|v| % 4 == 3 ==> v[|v| - 1] % 4 == 0)
  }

  lemma TwoBytes(a: Byte, b: Byte)
    ensures Bytes(Sextets([a, b])) == Some([a, b]) && Canonical(Sextets([a, b]))
  {
    JoinSplit3(a, b, 0);
    assert [a, b] == [a, b, 0][..2];
  }

  lemma OneByte(a: Byte)
    ensures Bytes(Sextets([a])) == Some([a]) && Canonical(Sextets([a]))
  {
    JoinSplit3(a, 0, 0);
    assert [a] == [a, 0, 0][..1];
  }

  /** Four sextets in front do not change how the rest reads. */
  lemma BytesPrepend(head: seq<Sextet>, tail: seq<Sextet>)
    requires |head| == 4 && Bytes(tail).Some?
    ensures Bytes(head + tail) == Some(Join4(head[0], head[1], head[2], head[3]) + Bytes(tail).value)
    ensures Canonical(tail) ==> Canonical(head + tail)
  {
    hide Join4;
    assert (head + tail)[4..] == tail && |head + tail| == 4 + |tail|;
    CanonicalTail(head + tail);
    hide Canonical;
  }

  lemma {:induction false} BytesSextets(b: seq<Byte>)
    ensures Bytes(Sextets(b)) == Some(b) && Canonical(Sextets(b)) && (b == [] <==> Sextets(b) == [])
  {
    if |b| >= 3 {
      JoinSplit3(b[0], b[1], b[2]);
      BytesSextets(b[3..]);
      assert |Split3(b[0], b[1], b[2])| == 4;
      hide Split3, Join4, Canonical, Bytes;
      BytesPrepend(Split3(b[0], b[1], b[2]), Sextets(b[3..]));
      assert b == [b[0], b[1], b[2]] + b[3..];
    } else if |b| == 2 {
      TwoBytes(b[0], b[1]);
      assert b == [b[0], b[1]];
    } else if |b| == 1 {
      OneByte(b[0]);
      assert b == [b[0]];
    }
  }

  lemma Short2(a: Sextet, b: Sextet)
    ensures Sextets(Join4(a, b, 0, 0)[..1]) == [a, b] <==> b % 16 == 0
  {
    var r := Join4(a, b, 0, 0);
    assert Split3(r[0], 0, 0)[..2] == [a, b / 16 * 16];
  }

  lemma Short3(a: Sextet, b: Sextet, c: Sextet)
    ensures Sextets(Join4(a, b, c, 0)[..2]) == [a, b, c] <==> c % 4 == 0
  {
    var r := Join4(a, b, c, 0);
    assert Split3(r[0], r[1], 0)[..3] == [a, b, c / 4 * 4];
  }

  lemma {:induction false} SextetsBytes(v: seq<Sextet>)
    ensures Bytes(v).None? <==> |v| % 4 == 1
    ensures Bytes(v).Some? ==> (Sextets(Bytes(v).value) == v <==> Canonical(v))
  {
    hide Canonical, Sextets, Join4, Bytes;
    if |v| >= 4 {
      SextetsBytes(v[4..]);
      CanonicalTail(v);
      BytesTail(v);
      if Bytes(v).Some? { LongSextets(v); }
      assert |v| % 4 == |v[4..]| % 4;
    } else {
      ShortSextets(v);
    }
  }

  lemma BytesTail(v: seq<Sextet>)
    requires |v| >= 4
    ensures Bytes(v).Some? <==> Bytes(v[4..]).Some?
  {
    hide Join4;
  }

  lemma ShortSextets(v: seq<Sextet>)
    requires |v| < 4
    ensures Bytes(v).None? <==> |v| % 4 == 1
    ensures Bytes(v).Some? ==> (Sextets(Bytes(v).value) == v <==> Canonical(v))
  {
    hide Sextets, Join4;
    if |v| == 2 {
      Short2(v[0], v[1]);
      assert v == [v[0], v[1]];
    } else if |v| == 3 {
      Short3(v[0], v[1], v[2]);
      assert v == [v[0], v[1], v[2]];
    } else if |v| == 0 {
      NoSextets();
    }
  }

  lemma NoSextets()
    ensures Sextets([]) == []
  {}

  lemma CanonicalTail(v: seq<Sextet>)
    requires |v| >= 4
    ensures Canonical(v) <==> Canonical(v[4..])
  {
    var tail := v[4..];
    assert |v| == |tail| + 4 && (tail != [] ==> v[|v| - 1] == tail[|tail| - 1]);
  }

  lemma LongSextets(v: seq<Sextet>)
    requires |v| >= 4 && Bytes(v).Some?
    ensures Sextets(Bytes(v).value) == v <==> Sextets(Bytes(v[4..]).value) == v[4..]
  {
    var head, rest := Join4(v[0], v[1], v[2], v[3]), Bytes(v[4..]).value;
    SplitJoin4(v[0], v[1], v[2], v[3]);
    assert (head + rest)[3..] == rest;
    assert v == v[..4] + v[4..] && v[..4] == [v[0], v[1], v[2], v[3]];
    var again := v[..4] + Sextets(rest);
    assert Sextets(head + rest) == again;
    assert again[4..] == Sextets(rest);
  }

  // Text.

  function Symbols(v: seq<Sextet>): (s: string)
    ensures |s| == |v| && forall k :: 0 <= k < |s| ==> s[k] == Symbol(v[k])
  {
    seq(|v|, k requires 0 <= k < |v| => Symbol(v[k]))
  }

  function Values(s: string): Option<seq<Sextet>> {
    if forall k :: 0 <= k < |s| ==> Value(s[k]).Some?
    then Some(seq(|s|, k requires 0 <= k < |s| && Value(s[k]).Some? => Value(s[k]).value))
    else None
  }

  lemma ValuesSymbols(v: seq<Sextet>)
    ensures Values(Symbols(v)) == Some(v)
  {
    var text := Symbols(v);
    forall k | 0 <= k < |v| ensures Value(text[k]) == Some(v[k]) { assert text[k] == Symbol(v[k]); }
    assert Values(text).value == v;
  }

  /** `btoa` of a byte string. */
  function Btoa(bytes: seq<Byte>): string {
    var text := Symbols(Sextets(bytes));
    text + if |text| % 4 == 2 then "==" else if |text| % 4 == 3 then "=" else ""
  }

  /** Up to two pad characters leave a text whose length is a multiple of four. */
  function Unpadded(s: string): string {
    if |s| % 4 == 0 && |s| >= 2 && s[|s| - 1] == '=' then
      if s[|s| - 2] == '=' then s[..|s| - 2] else s[..|s| - 1]
    else s
  }

  /** `atob`: forgiving about padding and unused bits, strict about the alphabet. */
  function Atob(s: string): Option<seq<Byte>> {
    match Values(Unpadded(s))
    case None => None
    case Some(v) => Bytes(v)
  }

  // The canonical texts of standard Base64, told by looking.

  predicate IsSymbol(c: char) { 'A' <= c <= 'Z' || 'a' <= c <= 'z' || '0' <= c <= '9' || c == '+' || c == '/' }

  /** The pad characters at the end of a text of complete groups. */
  function PadCount(s: string): nat {
    if |s| < 2 || s[|s| - 1] != '=' then 0 else if s[|s| - 2] != '=' then 1 else 2
  }

  /** Symbols of the alphabet in complete groups, padded as far as needed, with no stray low bit. */
  predicate CanonicalText(s: string) {
    && |s| % 4 == 0
    && (forall k :: 0 <= k < |s| - PadCount(s) ==> IsSymbol(s[k]))
    && (PadCount(s) == 2 ==> |s| > 2 && s[|s| - 3] in "AQgw")
    && (PadCount(s) == 1 ==> s[|s| - 2] in "AEIMQUYcgkosw048")
  }

  /** The number of bytes a canonical text spells. */
  function ByteCount(s: string): int { |s| / 4 * 3 - PadCount(s) }

  lemma SymbolFacts(c: char)
    ensures IsSymbol(c) <==> Value(c).Some?
    ensures c in "AQgw" <==> Value(c).Some? && Value(c).value % 16 == 0
    ensures c in "AEIMQUYcgkosw048" <==> Value(c).Some? && Value(c).value % 4 == 0
  {}

  lemma {:induction false} SextetsLength(b: seq<Byte>)
    ensures |Sextets(b)| == |b| / 3 * 4 + (if |b| % 3 == 0 then 0 else |b| % 3 + 1)
  {
    if |b| >= 3 { SextetsLength(b[3..]); }
  }

  /** Whatever is encoded is canonical, and the length of the bytes can be read off it. */
  lemma BtoaIsCanonical(b: seq<Byte>)
    ensures CanonicalText(Btoa(b)) && ByteCount(Btoa(b)) == |b|
  {
    var v := Sextets(b);
    BytesSextets(b);
    SextetsLength(b);
    hide Sextets, Bytes, Symbol, Value;
    forall k | 0 <= k < |v| ensures IsSymbol(Symbols(v)[k]) && Symbols(v)[k] != '=' { SymbolOf(v[k]); }
    if v != [] { SymbolOf(v[|v| - 1]); }
  }

  lemma SymbolOf(x: Sextet)
    ensures IsSymbol(Symbol(x)) && Symbol(x) != '=' && Value(Symbol(x)) == Some(x)
    ensures x % 16 == 0 ==> Symbol(x) in "AQgw"
    ensures x % 4 == 0 ==> Symbol(x) in "AEIMQUYcgkosw048"
  {
    SymbolFacts(Symbol(x));
  }

  /** A text decodes to bytes that encode back to it exactly when it is canonical. */
  lemma CanonicalTextDecodes(s: string)
    ensures CanonicalText(s) <==> Atob(s).Some? && Btoa(Atob(s).value) == s
    ensures CanonicalText(s) ==> |Atob(s).value| == ByteCount(s)
  {
    if Atob(s).Some? { BtoaIsCanonical(Atob(s).value); }
    if CanonicalText(s) {
      var text := s[..|s| - PadCount(s)];
      CanonicalSextets(s);
      var v := Values(text).value;
      SextetsBytes(v);
      var bytes := Bytes(v).value;
      assert Symbols(Sextets(bytes)) == text;
      BtoaIsCanonical(bytes);
    }
  }

  lemma CanonicalSextets(s: string)
    requires CanonicalText(s)
    ensures var text := s[..|s| - PadCount(s)];
      && Unpadded(s) == text && Values(text).Some? && Canonical(Values(text).value) && Symbols(Values(text).value) == text
      && s == text + if |text| % 4 == 2 then "==" else if |text| % 4 == 3 then "=" else ""
  {
    var text := s[..|s| - PadCount(s)];
    CanonicalShape(s);
    hide Value, Symbol, CanonicalText, PadCount, IsSymbol, Unpadded;
    forall k | 0 <= k < |text| ensures Value(text[k]).Some? { SymbolFacts(text[k]); }
    if text != [] { SymbolFacts(text[|text| - 1]); }
    assert Symbols(Values(text).value) == text;
  }

  /** The parts of a canonical text: its symbols, and exactly the padding they need. */
  lemma CanonicalShape(s: string)
    requires CanonicalText(s)
    ensures var text := s[..|s| - PadCount(s)];
      && Unpadded(s) == text && |text| % 4 != 1 && (forall k :: 0 <= k < |text| ==> IsSymbol(text[k]))
      && (|text| % 4 == 2 ==> text[|text| - 1] in "AQgw") && (|text| % 4 == 3 ==> text[|text| - 1] in "AEIMQUYcgkosw048")
      && s == text + if |text| % 4 == 2 then "==" else if |text| % 4 == 3 then "=" else ""
  {
    hide IsSymbol;
  }

  lemma AtobBtoa(b: seq<Byte>)
    ensures Atob(Btoa(b)) == Some(b)
  {
    var text := Symbols(Sextets(b));
    BytesSextets(b);
    ValuesSymbols(Sextets(b));
    NoPad(Sextets(b));
    UnpadPad(text);
  }

  lemma UnpadPad(text: string)
    requires '=' !in text && |text| % 4 != 1
    ensures Unpadded(text + if |text| % 4 == 2 then "==" else if |text| % 4 == 3 then "=" else "") == text
  {
    if |text| % 4 == 2 {
      assert (text + "==")[..|text|] == text;
    } else if |text| % 4 == 3 {
      assert text[|text| - 1] in text;
      assert (text + "=")[..|text|] == text;
    } else if text != "" {
      assert text[|text| - 1] in text;
      assert text + "" == text;
    }
  }

  lemma NoPad(v: seq<Sextet>)
    ensures '=' !in Symbols(v)
  {
    assert forall x: Sextet :: Symbol(x) != '=';
  }

  // The URL-safe form used for encrypted file names.

  function Replace(s: string, from: char, to: char): (r: string)
    ensures |r| == |s| && forall k :: 0 <= k < |s| ==> r[k] == if s[k] == from then to else s[k]
  {
    seq(|s|, k requires 0 <= k < |s| => if s[k] == from then to else s[k])
  }

  /** `replace(/=+$/, "")` */
  function StripPadding(s: string): (r: string)
    ensures r <= s && (r == "" || r[|r| - 1] != '=')
    ensures s != "" && s[|s| - 1] != '=' ==> r == s
  {
    if s != "" && s[|s| - 1] == '=' then StripPadding(s[..|s| - 1]) else s
  }

  function UrlEncode(bytes: seq<Byte>): string {
    StripPadding(Replace(Replace(Btoa(bytes), '+', '-'), '/', '_'))
  }

  function UrlSymbol(v: Sextet): char {
    if v == 62 then '-' else if v == 63 then '_' else Symbol(v)
  }

  predicate IsUrlSymbol(c: char) {
    'A' <= c <= 'Z' || 'a' <= c <= 'z' || '0' <= c <= '9' || c == '-' || c == '_'
  }

  function UrlSymbols(v: seq<Sextet>): (s: string)
    ensures |s| == |v| && forall k :: 0 <= k < |s| ==> s[k] == UrlSymbol(v[k])
  {
    seq(|v|, k requires 0 <= k < |v| => UrlSymbol(v[k]))
  }

  lemma {:induction false} StripPads(s: string, pads: string)
    requires s == "" || s[|s| - 1] != '='
    requires forall k :: 0 <= k < |pads| ==> pads[k] == '='
    ensures StripPadding(s + pads) == s
  {
    if pads == "" {
      assert s + pads == s;
    } else {
      StripPads(s, pads[..|pads| - 1]);
      assert (s + pads)[..|s + pads| - 1] == s + pads[..|pads| - 1];
    }
  }

  /** The encoding without detours: one URL symbol per sextet and no padding. */
  lemma UrlEncodeIsSextets(bytes: seq<Byte>)
    ensures UrlEncode(bytes) == UrlSymbols(Sextets(bytes))
  {
    var v := Sextets(bytes);
    var pads := if |v| % 4 == 2 then "==" else if |v| % 4 == 3 then "=" else "";
    assert Replace(Replace(Btoa(bytes), '+', '-'), '/', '_') == UrlSymbols(v) + pads;
    assert forall x: Sextet :: UrlSymbol(x) != '=';
    StripPads(UrlSymbols(v), pads);
  }

  /** The text handed to `atob`: standard alphabet, padded to a multiple of four. */
  function Standard(base64url: string): string {
    Pad(Replace(Replace(base64url, '-', '+'), '_', '/'))
  }

  function Pad(s: string): string
    decreases (4 - |s| % 4) % 4
  {
    if |s| % 4 == 0 then s else Pad(s + "=")
  }

  function UrlDecode(base64url: string): Option<seq<Byte>> {
    if base64url == "" || exists k :: 0 <= k < |base64url| && !IsUrlSymbol(base64url[k]) then None
    else match Atob(Standard(base64url))
         case None => None
         case Some(decoded) => if UrlEncode(decoded) == base64url then Some(decoded) else None
  }

  // Exactly which file names decode, and that decoding inverts encoding.

  lemma UrlSymbolsInjective(v: seq<Sextet>, w: seq<Sextet>)
    requires UrlSymbols(v) == UrlSymbols(w)
    ensures v == w
  {
    forall k | 0 <= k < |v| ensures |v| == |w| && v[k] == w[k] {
      assert UrlSymbols(v)[k] == UrlSymbols(w)[k];
      assert Value(Symbol(v[k])) == Some(v[k]) && Value(Symbol(w[k])) == Some(w[k]);
    }
  }

  /** Every text over the URL alphabet spells sextets. */
  lemma {:induction false} UrlText(s: string) returns (v: seq<Sextet>)
    requires forall k :: 0 <= k < |s| ==> IsUrlSymbol(s[k])
    ensures s == UrlSymbols(v)
  {
    v := [];
    for i := 0 to |s|
      invariant |v| == i && s[..i] == UrlSymbols(v)
    {
      var x: Sextet := if s[i] == '-' then 62 else if s[i] == '_' then 63 else Value(s[i]).value;
      assert UrlSymbol(x) == s[i];
      v := v + [x];
    }
  }

  lemma {:induction false} StandardText(v: seq<Sextet>)
    ensures Standard(UrlSymbols(v)) == Symbols(v) + Pads(|v|)
  {
    assert Replace(Replace(UrlSymbols(v), '-', '+'), '_', '/') == Symbols(v);
    PadAppends(Symbols(v));
  }

  function Pads(n: nat): string {
    if n % 4 == 1 then "===" else if n % 4 == 2 then "==" else if n % 4 == 3 then "=" else ""
  }

  lemma {:induction false} PadAppends(s: string)
    ensures Pad(s) == s + Pads(|s|)
    decreases (4 - |s| % 4) % 4
  {
    if |s| % 4 == 0 {
      assert s + "" == s;
    } else {
      PadAppends(s + "=");
      assert "=" + Pads(|s| + 1) == Pads(|s|);
      assert s + "=" + Pads(|s| + 1) == s + ("=" + Pads(|s| + 1));
    }
  }

  lemma UnpadPads(text: string)
    requires '=' !in text
    ensures Unpadded(text + Pads(|text|)) == if |text| % 4 == 1 then text + "=" else text
  {
    if |text| % 4 == 1 {
      assert (text + "===")[..|text| + 1] == text + "=";
    } else {
      UnpadPad(text);
      assert text + "" == text;
    }
  }

  /** What `atob` makes of URL text: the whole bytes, or an error for a lone sextet. */
  lemma AtobOfUrlText(v: seq<Sextet>)
    ensures Atob(Standard(UrlSymbols(v))) == Bytes(v)
  {
    StandardText(v);
    NoPad(v);
    UnpadPads(Symbols(v));
    SextetsBytes(v);
    if |v| % 4 == 1 {
      assert (Symbols(v) + "=")[|v|] == '=' && Value('=').None?;
    } else {
      ValuesSymbols(v);
    }
  }

  /** The decoder accepts exactly non-empty text over the URL alphabet without a lone symbol or a stray low bit,
      and then returns the only byte string with that encoding. */
  lemma DecodeAcceptsCanonical(s: string)
    ensures UrlDecode(s).Some? <==>
      s != "" && (forall k :: 0 <= k < |s| ==> IsUrlSymbol(s[k])) &&
      exists v :: s == UrlSymbols(v) && Canonical(v)
    ensures UrlDecode(s).Some? ==> UrlDecode(s).value != [] && UrlEncode(UrlDecode(s).value) == s
  {
    if s != "" && forall k :: 0 <= k < |s| ==> IsUrlSymbol(s[k]) {
      var v := UrlText(s);
      AtobOfUrlText(v);
      SextetsBytes(v);
      if Bytes(v).Some? {
        UrlEncodeIsSextets(Bytes(v).value);
        BytesSextets(Bytes(v).value);
        if UrlDecode(s).Some? { UrlSymbolsInjective(Sextets(Bytes(v).value), v); }
      }
      forall w | s == UrlSymbols(w) ensures w == v { UrlSymbolsInjective(w, v); }
    }
  }

  lemma DecodeEncode(b: seq<Byte>)
    requires b != []
    ensures UrlDecode(UrlEncode(b)) == Some(b)
  {
    hide Sextets, Bytes, Atob, Standard, UrlEncode, Split3, Join4, Btoa;
    var v := Sextets(b);
    UrlEncodeIsSextets(b);
    BytesSextets(b);
    AtobOfUrlText(v);
    forall k | 0 <= k < |v| ensures IsUrlSymbol(UrlSymbols(v)[k]) {}
  }

  /** Distinct names never share an encoding. */
  lemma EncodeInjective(a: seq<Byte>, b: seq<Byte>)
    requires UrlEncode(a) == UrlEncode(b)
    ensures a == b
  {
    UrlEncodeIsSextets(a);
    UrlEncodeIsSextets(b);
    UrlSymbolsInjective(Sextets(a), Sextets(b));
    BytesSextets(a);
    BytesSextets(b);
  }

  /** The decoder accepts exactly canonical text, and what it returns is the only byte string with that encoding. */
  lemma DecodesUniquely(s: string)
    ensures UrlDecode(s).Some? <==> s != "" && exists v :: s == UrlSymbols(v) && Canonical(v)
    ensures UrlDecode(s).Some? ==>
      UrlDecode(s).value != [] && UrlEncode(UrlDecode(s).value) == s && forall b :: UrlEncode(b) == s ==> b == UrlDecode(s).value
  {
    hide UrlDecode, UrlEncode, Canonical;
    DecodeAcceptsCanonical(s);
    forall b | UrlEncode(b) == s && UrlDecode(s).Some? ensures b == UrlDecode(s).value {
      EncodeInjective(b, UrlDecode(s).value);
    }
  }

  /** The decoder of the source, with its padding loop. */
  method Base64UrlDecode(base64url: string) returns (decoded: Option<seq<Byte>>)
    ensures decoded.Some? <==> base64url != "" && exists v :: base64url == UrlSymbols(v) && Canonical(v)
    ensures decoded.Some? ==>
      decoded.value != [] && UrlEncode(decoded.value) == base64url && forall b :: UrlEncode(b) == base64url ==> b == decoded.value
  {
    DecodesUniquely(base64url);
    decoded := Decode(base64url);
  }

  method Decode(base64url: string) returns (decoded: Option<seq<Byte>>)
    ensures decoded == UrlDecode(base64url)
  {
    if base64url == "" || exists k :: 0 <= k < |base64url| && !IsUrlSymbol(base64url[k]) {
      return None;
    }
    var base64 := Replace(Replace(base64url, '-', '+'), '_', '/');
    while |base64| % 4 != 0
      invariant Pad(base64) == Standard(base64url)
      decreases (4 - |base64| % 4) % 4
    {
      base64 := base64 + "=";
    }
    match Atob(base64)
    case None => return None;
    case Some(bytes) =>
      return if UrlEncode(bytes) == base64url then Some(bytes) else None;
  }
}
