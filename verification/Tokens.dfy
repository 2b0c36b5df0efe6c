/** The token format: printing, parsing, and what survives an Authorization
    header (security/credentials.py, security/authn.py). */
module Tokens {
  import opened Common
  import opened Text

  const TOKEN_PREFIX := "scrp"
  const CREDENTIAL_ID_PREFIX := "cred"
  const ID_HEX_LENGTH: nat := 12
  const MAX_TOKEN_LENGTH: nat := 512

  datatype CredentialError = CredentialError

  datatype Parsed = Parsed(credentialId: string, secret: string)

  predicate IsHex(c: char) {
    '0' <= c <= '9' || 'a' <= c <= 'f'
  }

  /** Twelve hexadecimal digits. */
  predicate IdHex(s: string) {
    |s| == ID_HEX_LENGTH && forall i :: 0 <= i < |s| ==> IsHex(s[i])
  }

  /** `_CREDENTIAL_ID_RE`. Its `$` also matches before a newline that ends the
      string. */
  predicate Matches(id: string) {
    && CREDENTIAL_ID_PREFIX + "_" <= id
    && var hex := id[|CREDENTIAL_ID_PREFIX| + 1..];
       IdHex(hex) || (hex != "" && hex[|hex| - 1] == '\n' && IdHex(hex[..|hex| - 1]))
  }

  /** The shape `new_credential_id` generates, and documentation promises. */
  predicate WellFormedId(id: string) {
    CREDENTIAL_ID_PREFIX + "_" <= id && IdHex(id[|CREDENTIAL_ID_PREFIX| + 1..])
  }

  /** The alphabet of base64 with URL-safe characters, RFC 4648 section 5. */
  predicate UrlSafe(c: char) {
    'A' <= c <= 'Z' || 'a' <= c <= 'z' || '0' <= c <= '9' || c == '-' || c == '_'
  }

  // ---- splitting at underscores

  /** Where the separator first occurs; past the end when it does not. */
  function IndexOf(s: string, sep: char): (i: nat)
    ensures i <= |s|
    ensures i < |s| ==> s[i] == sep
    ensures forall k :: 0 <= k < i ==> s[k] != sep
  {
    if s == "" || s[0] == sep then 0 else 1 + IndexOf(s[1..], sep)
  }

  /** `s.split(sep, limit)`. */
  function Split(s: string, sep: char, limit: nat): seq<string> {
    var i := IndexOf(s, sep);
    if limit == 0 || i == |s| then [s] else [s[..i]] + Split(s[i + 1..], sep, limit - 1)
  }

  lemma SplitAtFirst(head: string, tail: string, sep: char, limit: nat)
    requires sep !in head && limit > 0
    ensures Split(head + [sep] + tail, sep, limit) == [head] + Split(tail, sep, limit - 1)
  {
    var s := head + [sep] + tail;
    var i := IndexOf(s, sep);
    assert s[|head|] == sep;
    assert forall k :: 0 <= k < |head| ==> s[k] == head[k];
    assert i == |head|;
    assert s[..i] == head && s[i + 1..] == tail;
  }

  // ---- printing and parsing

  function FormatToken(credentialId: string, secret: string): Result<string, CredentialError> {
    if !Matches(credentialId) then Err(CredentialError)
    else
      var parts := Split(credentialId, '_', 1);
      if |parts| != 2 then Err(CredentialError)
      else Ok(TOKEN_PREFIX + "_" + parts[1] + "_" + secret)
  }

  function ParseToken(raw: string): Result<Parsed, CredentialError> {
    if raw == "" || |raw| > MAX_TOKEN_LENGTH then Err(CredentialError)
    else
      var parts := Split(raw, '_', 2);
      if |parts| != 3 then Err(CredentialError)
      else if parts[0] != TOKEN_PREFIX || parts[2] == "" then Err(CredentialError)
      else
        var id := CREDENTIAL_ID_PREFIX + "_" + parts[1];
        if !Matches(id) then Err(CredentialError) else Ok(Parsed(id, parts[2]))
  }

  /** What `FormatToken` prints. */
  function Printed(hex: string, secret: string): string {
    TOKEN_PREFIX + "_" + hex + "_" + secret
  }

  lemma MatchedDigits(id: string)
    requires Matches(id)
    ensures |id| >= 5
    ensures var hex := id[|CREDENTIAL_ID_PREFIX| + 1..];
            && id == CREDENTIAL_ID_PREFIX + ['_'] + hex && '_' !in hex
            && (|hex| == ID_HEX_LENGTH || (|hex| == ID_HEX_LENGTH + 1 && hex[ID_HEX_LENGTH] == '\n'))
  {
  }

  lemma NoMoreSplits(s: string, sep: char)
    ensures Split(s, sep, 0) == [s]
  {
  }

  /** An id is its prefix and its digits, and splits into exactly those. */
  lemma IdSplits(id: string) returns (hex: string)
    requires Matches(id)
    ensures id == CREDENTIAL_ID_PREFIX + "_" + hex && '_' !in hex
    ensures Split(id, '_', 1) == [CREDENTIAL_ID_PREFIX, hex]
    ensures |hex| == ID_HEX_LENGTH || (|hex| == ID_HEX_LENGTH + 1 && hex[ID_HEX_LENGTH] == '\n')
  {
    MatchedDigits(id);
    hide Matches, Split;
    hex := id[|CREDENTIAL_ID_PREFIX| + 1..];
    SplitAtFirst(CREDENTIAL_ID_PREFIX, hex, '_', 1);
    NoMoreSplits(hex, '_');
  }

  lemma PrintedSplits(hex: string, secret: string)
    requires '_' !in hex
    ensures Split(Printed(hex, secret), '_', 2) == [TOKEN_PREFIX, hex, secret]
  {
    assert Printed(hex, secret) == TOKEN_PREFIX + ['_'] + (hex + ['_'] + secret);
    SplitAtFirst(TOKEN_PREFIX, hex + ['_'] + secret, '_', 2);
    SplitAtFirst(hex, secret, '_', 1);
  }

  /** `sep.join(parts)`. */
  function Join(parts: seq<string>, sep: char): string {
    if parts == [] then ""
    else if |parts| == 1 then parts[0]
    else parts[0] + [sep] + Join(parts[1..], sep)
  }

  lemma AroundOne(s: string, i: nat)
    requires i < |s|
    ensures s == s[..i] + [s[i]] + s[i + 1..]
  {
  }

  lemma JoinFirst(head: string, rest: seq<string>, sep: char)
    requires rest != []
    ensures Join([head] + rest, sep) == head + [sep] + Join(rest, sep)
  {
    assert ([head] + rest)[1..] == rest;
  }

  /** Splitting loses nothing. */
  lemma {:induction false} JoinUndoesSplit(s: string, sep: char, limit: nat)
    ensures Split(s, sep, limit) != [] && Join(Split(s, sep, limit), sep) == s
  {
    var i := IndexOf(s, sep);
    if limit > 0 && i < |s| {
      var rest := Split(s[i + 1..], sep, limit - 1);
      assert Split(s, sep, limit) == [s[..i]] + rest;
      hide Split, Join, IndexOf;
      JoinUndoesSplit(s[i + 1..], sep, limit - 1);
      JoinFirst(s[..i], rest, sep);
      AroundOne(s, i);
    }
  }

  lemma JoinThree(parts: seq<string>)
    requires |parts| == 3
    ensures Join(parts, '_') == parts[0] + "_" + parts[1] + "_" + parts[2]
  {
    assert parts[1..][1..] == [parts[2]];
    assert Join(parts[1..], '_') == parts[1] + ['_'] + parts[2];
  }

  /** Parsing undoes printing: every id the pattern admits and every non-empty
      secret, underscores and all, come back, so long as the token is not too long. */
  lemma ParseUndoesFormat(id: string, secret: string)
    requires Matches(id)
    ensures FormatToken(id, secret).Ok?
    ensures var raw := FormatToken(id, secret).value;
            if secret != "" && |raw| <= MAX_TOKEN_LENGTH then ParseToken(raw) == Ok(Parsed(id, secret))
            else ParseToken(raw) == Err(CredentialError)
  {
    var hex := IdSplits(id);
    PrintedSplits(hex, secret);
    assert FormatToken(id, secret) == Ok(Printed(hex, secret));
  }

  /** Printing undoes parsing: an accepted token is reprinted character for
      character. */
  lemma FormatUndoesParse(raw: string)
    requires ParseToken(raw).Ok?
    ensures var p := ParseToken(raw).value;
            && FormatToken(p.credentialId, p.secret) == Ok(raw)
            && Matches(p.credentialId) && p.secret != ""
  {
    var parts := Split(raw, '_', 2);
    JoinUndoesSplit(raw, '_', 2);
    JoinThree(parts);
    var id := CREDENTIAL_ID_PREFIX + "_" + parts[1];
    var hex := IdSplits(id);
    assert id[|CREDENTIAL_ID_PREFIX| + 1..] == hex == parts[1];
    assert raw == Printed(parts[1], parts[2]);
  }

  /** So the parser accepts exactly the printed tokens. */
  lemma AcceptsExactlyThePrinted(raw: string)
    ensures ParseToken(raw).Ok? <==>
              |raw| <= MAX_TOKEN_LENGTH &&
              exists id, secret :: Matches(id) && secret != "" && FormatToken(id, secret) == Ok(raw)
  {
    if ParseToken(raw).Ok? {
      FormatUndoesParse(raw);
    }
    if |raw| <= MAX_TOKEN_LENGTH {
      forall id, secret | Matches(id) && secret != "" && FormatToken(id, secret) == Ok(raw) ensures ParseToken(raw).Ok? {
        ParseUndoesFormat(id, secret);
      }
    }
  }

  /** No token has two readings. */
  lemma FormatIsInjective(id: string, secret: string, id': string, secret': string)
    requires Matches(id) && Matches(id') && FormatToken(id, secret) == FormatToken(id', secret')
    ensures id == id' && secret == secret'
  {
    var hex := IdSplits(id);
    var hex' := IdSplits(id');
    PrintedSplits(hex, secret);
    PrintedSplits(hex', secret');
    assert FormatToken(id, secret) == Ok(Printed(hex, secret));
    assert FormatToken(id', secret') == Ok(Printed(hex', secret'));
    assert [TOKEN_PREFIX, hex, secret][1] == [TOKEN_PREFIX, hex', secret'][1];
    assert [TOKEN_PREFIX, hex, secret][2] == [TOKEN_PREFIX, hex', secret'][2];
  }

  /** The pattern lets an id end in a newline, which is not a well-formed id; that
      is the only liberty it takes. */
  lemma PatternAdmitsANewline()
    ensures Matches("cred_a8f13e9c2b41\n") && !WellFormedId("cred_a8f13e9c2b41\n")
  {
    var id := "cred_a8f13e9c2b41\n";
    assert id[..5] == "cred_";
    assert id[5..] == "a8f13e9c2b41\n" && id[5..][..12] == "a8f13e9c2b41";
  }

  lemma PatternIsExactButForNewlines(id: string)
    ensures WellFormedId(id) <==> Matches(id) && '\n' !in id
  {
  }

  // ---- the Authorization header

  const BEARER_SCHEME := "bearer"

  datatype HeaderFault = Missing | Malformed

  function DropSpace(s: string): string {
    if s != "" && IsSpace(s[0]) then DropSpace(s[1..]) else s
  }

  function WordLength(s: string): (n: nat)
    ensures n <= |s| && NoSpace(s[..n]) && (n < |s| ==> IsSpace(s[n]))
    ensures s != "" && !IsSpace(s[0]) ==> n > 0
  {
    if s == "" || IsSpace(s[0]) then 0 else 1 + WordLength(s[1..])
  }

  lemma DropSpaceDrops(s: string)
    ensures |DropSpace(s)| <= |s| && DropSpace(s) == s[|s| - |DropSpace(s)|..]
    ensures Blank(s[..|s| - |DropSpace(s)|])
    ensures DropSpace(s) != "" ==> !IsSpace(DropSpace(s)[0])
  {
    if s != "" && IsSpace(s[0]) {
      DropSpaceDrops(s[1..]);
      var n := |s| - |DropSpace(s)|;
      assert s[..n] == [s[0]] + s[1..][..n - 1];
    }
  }

  /** `s.split()`. */
  function Words(s: string): seq<string>
    decreases |s|
  {
    DropSpaceDrops(s);
    var t := DropSpace(s);
    if t == "" then [] else [t[..WordLength(t)]] + Words(t[WordLength(t)..])
  }

  /** ASCII lower-casing; nothing outside ASCII lowers to a letter of `bearer`. */
  function LowerChar(c: char): char {
    if 'A' <= c <= 'Z' then c + ' ' else c
  }

  function Lower(s: string): string {
    seq(|s|, i requires 0 <= i < |s| => LowerChar(s[i]))
  }

  /** The scheme is the word, each letter in either case. */
  lemma SchemeIsBearer(s: string)
    ensures Lower(s) == BEARER_SCHEME <==>
              |s| == 6 && forall i :: 0 <= i < 6 ==> s[i] == "bearer"[i] || s[i] == "BEARER"[i]
  {
    if Lower(s) == BEARER_SCHEME {
      assert |s| == |Lower(s)| == 6;
      forall i | 0 <= i < 6 ensures s[i] == "bearer"[i] || s[i] == "BEARER"[i] {
        assert LowerChar(s[i]) == Lower(s)[i] == "bearer"[i];
        LowerIsEitherCase(s[i], i);
      }
    }
    if |s| == 6 && forall i :: 0 <= i < 6 ==> s[i] == "bearer"[i] || s[i] == "BEARER"[i] {
      forall i | 0 <= i < 6 ensures Lower(s)[i] == BEARER_SCHEME[i] {
        LowerIsEitherCase(s[i], i);
      }
    }
  }

  lemma LowerIsEitherCase(c: char, i: nat)
    requires i < 6
    ensures LowerChar(c) == "bearer"[i] <==> c == "bearer"[i] || c == "BEARER"[i]
  {
  }

  /** A generated id, spelled out. */
  lemma IdShape(id: string)
    ensures WellFormedId(id) <==>
              |id| == 17 && id[..5] == "cred_" && forall i :: 5 <= i < 17 ==> id[i] in "0123456789abcdef"
  {
    if |id| == 17 {
      forall i | 5 <= i < 17 ensures IsHex(id[i]) <==> id[i] in "0123456789abcdef" {
        HexDigits(id[i]);
      }
      assert id[5..] == id[|CREDENTIAL_ID_PREFIX| + 1..];
      assert forall i :: 0 <= i < 12 ==> id[5..][i] == id[i + 5];
    }
  }

  lemma HexDigits(c: char)
    ensures IsHex(c) <==> c in "0123456789abcdef"
  {
    var digits := "0123456789abcdef";
    if '0' <= c <= '9' {
      assert c == digits[(c - '0') as int];
    } else if 'a' <= c <= 'f' {
      assert c == digits[10 + (c - 'a') as int];
    }
  }

  function ParseBearer(header: Option<string>): Result<string, HeaderFault> {
    if header == None || Blank(header.value) then Err(Missing)
    else
      var parts := Words(header.value);
      if |parts| != 2 || Lower(parts[0]) != BEARER_SCHEME || parts[1] == "" then Err(Malformed) else Ok(parts[1])
  }

  lemma {:induction false} BlankIsSkipped(space: string, s: string)
    requires Blank(space)
    ensures DropSpace(space + s) == DropSpace(s)
  {
    if space != "" {
      assert (space + s)[1..] == space[1..] + s;
      BlankIsSkipped(space[1..], s);
    } else {
      assert space + s == s;
    }
  }

  lemma {:induction false} WordEnds(word: string, rest: string)
    requires NoSpace(word) && (rest == "" || IsSpace(rest[0]))
    ensures WordLength(word + rest) == |word|
  {
    if word != "" {
      assert (word + rest)[1..] == word[1..] + rest;
      WordEnds(word[1..], rest);
    } else {
      assert word + rest == rest;
    }
  }

  lemma WordIsTaken(space: string, word: string, rest: string)
    requires Blank(space) && word != "" && NoSpace(word) && (rest == "" || IsSpace(rest[0]))
    ensures Words(space + word + rest) == [word] + Words(rest)
  {
    var t := word + rest;
    assert space + word + rest == space + t;
    BlankIsSkipped(space, t);
    assert t[0] == word[0];
    assert DropSpace(t) == t;
    WordEnds(word, rest);
    assert t[..|word|] == word && t[|word|..] == rest;
  }

  lemma NoWordsInBlank(s: string)
    requires Blank(s)
    ensures Words(s) == []
  {
    BlankIsSkipped(s, "");
    assert s + "" == s;
  }

  lemma FirstWord(s: string) returns (space: string, word: string, rest: string)
    requires Words(s) != []
    ensures s == space + word + rest && Blank(space)
    ensures word != "" && NoSpace(word) && (rest == "" || IsSpace(rest[0]))
    ensures Words(s) == [word] + Words(rest)
  {
    DropSpaceDrops(s);
    var t := DropSpace(s);
    var n := WordLength(t);
    space, word, rest := s[..|s| - |t|], t[..n], t[n..];
  }

  lemma NoWordsIsBlank(s: string)
    requires Words(s) == []
    ensures Blank(s)
  {
    DropSpaceDrops(s);
    assert s[..|s|] == s;
  }

  /** A header is accepted, with this token, exactly when it is the scheme in any
      case and the token, with white space around and between and nowhere else
      (section 2.1 of RFC 6750 allows one space; the parser any amount). */
  predicate BearerLayout(h: string, a: string, scheme: string, b: string, token: string, c: string) {
    && h == a + scheme + b + token + c
    && Blank(a) && Blank(b) && b != "" && Blank(c)
    && Lower(scheme) == BEARER_SCHEME && NoSpace(scheme)
    && token != "" && NoSpace(token)
  }

  lemma LayoutIsAccepted(h: string, a: string, scheme: string, b: string, token: string, c: string)
    requires BearerLayout(h, a, scheme, b, token, c)
    ensures ParseBearer(Some(h)) == Ok(token)
  {
    assert |scheme| == |Lower(scheme)| == 6;
    assert h == a + scheme + (b + token + c) && (b + token + c)[0] == b[0];
    WordIsTaken(a, scheme, b + token + c);
    WordIsTaken(b, token, c);
    NoWordsInBlank(c);
    assert h[|a|] == scheme[0] && !IsSpace(h[|a|]);
    assert Words(h) == [scheme, token];
  }

  lemma AcceptedHasLayout(h: string) returns (a: string, scheme: string, b: string, c: string)
    requires ParseBearer(Some(h)).Ok?
    ensures BearerLayout(h, a, scheme, b, ParseBearer(Some(h)).value, c)
  {
    hide Words, Lower, IsSpace, Split;
    var rest, token;
    a, scheme, rest := FirstWord(h);
    b, token, c := FirstWord(rest);
    NoWordsIsBlank(c);
    SpaceBetween(b, token, c);
    Regroup(a, scheme, b, token, c);
  }

  lemma SpaceBetween(b: string, token: string, c: string)
    requires token != "" && NoSpace(token) && (b + token + c == "" || IsSpace((b + token + c)[0]))
    ensures b != ""
  {
    assert (b + token + c)[|b|] == token[0];
  }

  lemma Regroup(a: string, scheme: string, b: string, token: string, c: string)
    ensures a + scheme + (b + token + c) == a + scheme + b + token + c
  {
  }

  /** A white-space-free token survives the header and the parser alike; and a
      token that came through a header has no newline, so its id is well-formed. */
  lemma HeaderTokensAreStrict(h: string)
    requires ParseBearer(Some(h)).Ok? && ParseToken(ParseBearer(Some(h)).value).Ok?
    ensures WellFormedId(ParseToken(ParseBearer(Some(h)).value).value.credentialId)
  {
    var a, scheme, b, c := AcceptedHasLayout(h);
    var token := ParseBearer(Some(h)).value;
    FormatUndoesParse(token);
    var id := ParseToken(token).value.credentialId;
    var hex := IdSplits(id);
    assert token == Printed(hex, ParseToken(token).value.secret);
    forall i | 0 <= i < |hex| ensures hex[i] != '\n' {
      assert token[5 + i] == hex[i];
    }
    PatternIsExactButForNewlines(id);
  }

  /** Every token the system issues gets through a plain header and parses back. */
  lemma IssuedTokenSurvivesHeader(id: string, secret: string)
    requires WellFormedId(id) && secret != "" && |secret| <= MAX_TOKEN_LENGTH - 18
    requires forall i :: 0 <= i < |secret| ==> UrlSafe(secret[i])
    ensures FormatToken(id, secret).Ok?
    ensures ParseBearer(Some("Bearer " + FormatToken(id, secret).value)) == Ok(FormatToken(id, secret).value)
    ensures ParseToken(FormatToken(id, secret).value) == Ok(Parsed(id, secret))
  {
    PatternIsExactButForNewlines(id);
    ParseUndoesFormat(id, secret);
    var hex := IdSplits(id);
    assert hex == id[|CREDENTIAL_ID_PREFIX| + 1..];
    var token := FormatToken(id, secret).value;
    assert token == Printed(hex, secret);
    forall i | 0 <= i < |token| ensures !IsSpace(token[i]) {
      assert token[i] in TOKEN_PREFIX || token[i] == '_' || token[i] in hex || token[i] in secret;
    }
    assert "Bearer " + token == "" + "Bearer" + " " + token + "";
    assert Lower("Bearer") == BEARER_SCHEME;
    LayoutIsAccepted("Bearer " + token, "", "Bearer", " ", token, "");
  }
}
