/** The structured password hashes (bcrypt, PHC strings, LDAP userPassword)
    read into CMF's password object. */
module PasswordHash {

  import opened BinaryText
  import opened Decimals
  import opened Options

  datatype Algorithm = Bcrypt | Scrypt | PBKDF2 | Argon2 | MD4 | MD5 | SHA1 | SHA256 | SHA512 | HMAC | LDAP | NoAlgorithm

  datatype SaltPosition = Prefix | Suffix | NoPosition

  datatype HashValue = HashValue(value: string, encoding: Encoding, digest: string)

  datatype SaltValue = SaltValue(value: string, encoding: Encoding, position: SaltPosition)

  /** A parameter's value: a string, a whole number, or something else. */
  datatype Param = Text(text: string) | Number(number: int) | Other

  datatype Password = Password(
    algorithm: Algorithm,
    phcString: string,
    hash: HashValue,
    salt: Option<SaltValue>,
    params: map<string, Param>,
    portable: bool)

  datatype Normalized = Ok(password: Password) | Ambiguous | Unportable

  /** The groups of the argon2 PHC string's regular expression. */
  datatype Argon2Groups = Argon2Groups(
    variant: string, version: string, memory: string, time: string, parallelism: string, salt: string, key: string)

  datatype PBKDF2Groups = PBKDF2Groups(digest: string, iterations: string, salt: string, key: string)

  datatype ScryptGroups = ScryptGroups(ln: string, r: string, p: string, salt: string, key: string)

  predicate Labelled(tag: string, part: string) {
    tag <= part && IsDigits(part[|tag|..])
  }

  predicate IsVariant(s: string) {
    s == "argon2id" || s == "argon2i"
  }

  predicate IsDigest(s: string) {
    s == "sha1" || s == "sha256" || s == "sha512"
  }

  /** Three numbers with labels, between commas. */
  function MatchNumbers(s: string, labels: (string, string, string)): Option<(string, string, string)> {
    var parts := Split(s, ',');
    if |parts| == 3 && Labelled(labels.0, parts[0]) && Labelled(labels.1, parts[1]) && Labelled(labels.2, parts[2])
    then Some((parts[0][|labels.0|..], parts[1][|labels.1|..], parts[2][|labels.2|..]))
    else None
  }

  const ARGON2_LABELS := ("m=", "t=", "p=")
  const SCRYPT_LABELS := ("ln=", "r=", "p=")

  /** argon2RE. */
  function MatchArgon2(s: string): Option<Argon2Groups> {
    var parts := Split(s, '$');
    if |parts| == 6 && parts[0] == "" && IsVariant(parts[1]) && Labelled("v=", parts[2]) && parts[4] != "" && parts[5] != "" then
      match MatchNumbers(parts[3], ARGON2_LABELS)
      case None => None
      case Some((m, t, p)) => Some(Argon2Groups(parts[1], parts[2][2..], m, t, p, parts[4], parts[5]))
    else None
  }

  /** scryptRE. */
  function MatchScrypt(s: string): Option<ScryptGroups> {
    var parts := Split(s, '$');
    if |parts| == 5 && parts[0] == "" && parts[1] == "scrypt" && parts[3] != "" && parts[4] != "" then
      match MatchNumbers(parts[2], SCRYPT_LABELS)
      case None => None
      case Some((ln, r, p)) => Some(ScryptGroups(ln, r, p, parts[3], parts[4]))
    else None
  }

  /** pbkdf2RE. */
  function MatchPBKDF2(s: string): Option<PBKDF2Groups> {
    var parts := Split(s, '$');
    if |parts| == 5 && parts[0] == "" && "pbkdf2-" <= parts[1] && IsDigest(parts[1][7..])
       && Labelled("i=", parts[2]) && parts[3] != "" && parts[4] != ""
    then Some(PBKDF2Groups(parts[1][7..], parts[2][2..], parts[3], parts[4]))
    else None
  }

  predicate IsBcryptChar(c: char) {
    c == '.' || '/' <= c <= '9' || 'A' <= c <= 'Z' || 'a' <= c <= 'z'
  }

  /** bcryptRE. */
  predicate MatchesBcrypt(s: string) {
    && |s| == 60 && "$2" <= s && (s[2] == 'a' || s[2] == 'b' || s[2] == 'y')
    && s[3] == '$' && IsDigit(s[4]) && IsDigit(s[5]) && s[6] == '$'
    && forall i :: 7 <= i < 60 ==> IsBcryptChar(s[i])
  }

  predicate LDAPOf(s: string, scheme: string) {
    var prefix := "{" + scheme + "}";
    prefix < s && '\n' !in s[|prefix|..]
  }

  /** The scheme of an RFC 2307 userPassword value. */
  function MatchLDAP(s: string): Option<string> {
    if LDAPOf(s, "SSHA") then Some("SSHA")
    else if LDAPOf(s, "SHA") then Some("SHA")
    else if LDAPOf(s, "SMD5") then Some("SMD5")
    else if LDAPOf(s, "MD5") then Some("MD5")
    else if LDAPOf(s, "CRYPT") then Some("CRYPT")
    else None
  }

  function Salted(value: string): Option<SaltValue> {
    Some(SaltValue(value, Base64, Prefix))
  }

  function OfArgon2(raw: string, g: Argon2Groups): Password
    requires IsDigits(g.memory) && IsDigits(g.time) && IsDigits(g.parallelism)
  {
    Password(Argon2, raw, HashValue(g.key, Base64, ""), Salted(g.salt),
             map["variant" := Text(g.variant), "version" := Text(g.version), "memory" := Number(Atoi(g.memory)),
                 "time" := Number(Atoi(g.time)), "parallelism" := Number(Atoi(g.parallelism))],
             true)
  }

  function Power2(n: nat): nat {
    if n == 0 then 1 else 2 * Power2(n - 1)
  }

  /** 1 << n of a 64-bit int. */
  function Shift1(n: nat): int {
    if n < 63 then Power2(n) else if n == 63 then -(MAX_INT as int) - 1 else 0
  }

  function OfScrypt(g: ScryptGroups): Password
    requires IsDigits(g.ln) && IsDigits(g.r) && IsDigits(g.p)
  {
    Password(Scrypt, "", HashValue(g.key, Base64, ""), Salted(g.salt),
             map["cost" := Number(Shift1(Atoi(g.ln))), "blockSize" := Number(Atoi(g.r)), "parallelization" := Number(Atoi(g.p))],
             true)
  }

  function OfPBKDF2(g: PBKDF2Groups): Password
    requires IsDigits(g.iterations)
  {
    Password(PBKDF2, "", HashValue(g.key, Base64, g.digest), Salted(g.salt),
             map["digest" := Text(g.digest), "iterations" := Number(Atoi(g.iterations))],
             true)
  }

  /** Normalize with an empty hint. */
  function Normalize(raw: string): Normalized {
    if MatchesBcrypt(raw) then Ok(Password(Bcrypt, "", HashValue(raw, Utf8, ""), None, map[], true))
    else if MatchArgon2(raw).Some? then Ok(OfArgon2(raw, MatchArgon2(raw).value))
    else if MatchScrypt(raw).Some? then Ok(OfScrypt(MatchScrypt(raw).value))
    else if MatchPBKDF2(raw).Some? then Ok(OfPBKDF2(MatchPBKDF2(raw).value))
    else
      match MatchLDAP(raw)
      case None => Ambiguous
      case Some(scheme) =>
        if scheme == "CRYPT" then Unportable
        else Ok(Password(LDAP, "", HashValue(raw, Utf8, ""), None, map["scheme" := Text(scheme)], true))
  }

  function PrintArgon2(g: Argon2Groups): string {
    Join(["", g.variant, "v=" + g.version,
          Join(["m=" + g.memory, "t=" + g.time, "p=" + g.parallelism], ','), g.salt, g.key], '$')
  }

  function PrintPBKDF2(g: PBKDF2Groups): string {
    Join(["", "pbkdf2-" + g.digest, "i=" + g.iterations, g.salt, g.key], '$')
  }

  /** The printed strings in full. */
  lemma PrintedArgon2Is(g: Argon2Groups)
    ensures PrintArgon2(g)
            == "" + "$" + g.variant + "$" + ("v=" + g.version) + "$"
               + (("m=" + g.memory) + "," + ("t=" + g.time) + "," + ("p=" + g.parallelism)) + "$" + g.salt + "$" + g.key
  {
    var numbers := ("m=" + g.memory) + "," + ("t=" + g.time) + "," + ("p=" + g.parallelism);
    ThreeJoined("m=" + g.memory, "t=" + g.time, "p=" + g.parallelism, ',');
    assert Join(["m=" + g.memory, "t=" + g.time, "p=" + g.parallelism], ',') == numbers;
    SixJoined("", g.variant, "v=" + g.version, numbers, g.salt, g.key, '$');
  }

  lemma PrintedPBKDF2Is(g: PBKDF2Groups)
    ensures PrintPBKDF2(g) == "" + "$" + ("pbkdf2-" + g.digest) + "$" + ("i=" + g.iterations) + "$" + g.salt + "$" + g.key
  {
    FiveJoined("", "pbkdf2-" + g.digest, "i=" + g.iterations, g.salt, g.key, '$');
  }

  lemma ThreeJoined(a: string, b: string, c: string, sep: char)
    ensures Join([a, b, c], sep) == a + [sep] + b + [sep] + c
  {
    assert [a, b, c][..2] == [a, b] && [a, b][..1] == [a];
    assert Join([a, b], sep) == a + [sep] + b;
  }

  lemma FiveJoined(a: string, b: string, c: string, d: string, e: string, sep: char)
    ensures Join([a, b, c, d, e], sep) == a + [sep] + b + [sep] + c + [sep] + d + [sep] + e
  {
    ThreeJoined(a, b, c, sep);
    assert [a, b, c, d, e][..4] == [a, b, c, d] && [a, b, c, d][..3] == [a, b, c];
  }

  lemma SixJoined(a: string, b: string, c: string, d: string, e: string, f: string, sep: char)
    ensures Join([a, b, c, d, e, f], sep) == a + [sep] + b + [sep] + c + [sep] + d + [sep] + e + [sep] + f
  {
    FiveJoined(a, b, c, d, e, sep);
    assert [a, b, c, d, e, f][..5] == [a, b, c, d, e];
  }

  /** Groups that can be printed: their salt or key may be too short to be read back. */
  predicate PrintableArgon2(g: Argon2Groups) {
    && IsVariant(g.variant) && IsDigits(g.version) && IsDigits(g.memory) && IsDigits(g.time) && IsDigits(g.parallelism)
    && Free(g.salt, '$') && Free(g.key, '$')
  }

  predicate PrintablePBKDF2(g: PBKDF2Groups) {
    IsDigest(g.digest) && Free(g.iterations, '$') && Free(g.salt, '$') && Free(g.key, '$')
  }

  lemma NumbersPrinted(m: string, t: string, p: string)
    requires IsDigits(m) && IsDigits(t) && IsDigits(p)
    ensures var s := Join(["m=" + m, "t=" + t, "p=" + p], ',');
            Free(s, '$') && MatchNumbers(s, ARGON2_LABELS) == Some((m, t, p))
  {
    var parts := ["m=" + m, "t=" + t, "p=" + p];
    SplitOfJoin(parts, ',');
    JoinIsFree(parts, ',', '$');
    Untagged("m=", m);
    Untagged("t=", t);
    Untagged("p=", p);
  }

  /** Reading inverts printing. */
  lemma Argon2Printed(g: Argon2Groups)
    requires PrintableArgon2(g)
    ensures MatchArgon2(PrintArgon2(g)) == if g.salt != "" && g.key != "" then Some(g) else None
  {
    NumbersPrinted(g.memory, g.time, g.parallelism);
    var parts := ["", g.variant, "v=" + g.version,
                  Join(["m=" + g.memory, "t=" + g.time, "p=" + g.parallelism], ','), g.salt, g.key];
    SplitOfJoin(parts, '$');
    Untagged("v=", g.version);
  }

  lemma NumbersRead(s: string)
    requires MatchNumbers(s, ARGON2_LABELS).Some?
    ensures var (m, t, p) := MatchNumbers(s, ARGON2_LABELS).value;
            IsDigits(m) && IsDigits(t) && IsDigits(p) && Join(["m=" + m, "t=" + t, "p=" + p], ',') == s
  {
    JoinOfSplit(s, ',');
    var parts := Split(s, ',');
    Tagged("m=", parts[0]);
    Tagged("t=", parts[1]);
    Tagged("p=", parts[2]);
    assert parts == ["m=" + parts[0][2..], "t=" + parts[1][2..], "p=" + parts[2][2..]];
  }

  /** Printing inverts reading. */
  lemma Argon2Read(s: string)
    requires MatchArgon2(s).Some?
    ensures var g := MatchArgon2(s).value;
            PrintableArgon2(g) && g.salt != "" && g.key != "" && PrintArgon2(g) == s
  {
    JoinOfSplit(s, '$');
    var parts := Split(s, '$');
    NumbersRead(parts[3]);
    Tagged("v=", parts[2]);
    assert parts == [parts[0], parts[1], "v=" + parts[2][2..], parts[3], parts[4], parts[5]];
  }

  lemma PBKDF2Printed(g: PBKDF2Groups)
    requires PrintablePBKDF2(g)
    ensures MatchPBKDF2(PrintPBKDF2(g)) == if IsDigits(g.iterations) && g.salt != "" && g.key != "" then Some(g) else None
  {
    var parts := ["", "pbkdf2-" + g.digest, "i=" + g.iterations, g.salt, g.key];
    SplitOfJoin(parts, '$');
    Untagged("pbkdf2-", g.digest);
    Untagged("i=", g.iterations);
  }

  lemma PBKDF2Read(s: string)
    requires MatchPBKDF2(s).Some?
    ensures var g := MatchPBKDF2(s).value;
            PrintablePBKDF2(g) && IsDigits(g.iterations) && g.salt != "" && g.key != "" && PrintPBKDF2(g) == s
  {
    JoinOfSplit(s, '$');
    var parts := Split(s, '$');
    Tagged("pbkdf2-", parts[1]);
    Tagged("i=", parts[2]);
    assert parts == [parts[0], "pbkdf2-" + parts[1][7..], "i=" + parts[2][2..], parts[3], parts[4]];
  }

  lemma PrintedHead(parts: seq<string>, c: char)
    requires |parts| >= 2 && parts[0] == "" && parts[1] != "" && parts[1][0] == c
    ensures |Join(parts, '$')| >= 2 && Join(parts, '$')[0] == '$' && Join(parts, '$')[1] == c
    decreases |parts|
  {
    if |parts| > 2 {
      PrintedHead(parts[..|parts| - 1], c);
    }
  }

  lemma NeitherBcryptNorLDAP(s: string)
    requires |s| >= 2 && s[0] == '$' && s[1] != '2'
    ensures !MatchesBcrypt(s) && MatchLDAP(s).None?
  {
  }

  lemma OnlyArgon2(g: Argon2Groups)
    requires PrintableArgon2(g)
    ensures var s := PrintArgon2(g);
            !MatchesBcrypt(s) && MatchScrypt(s).None? && MatchPBKDF2(s).None? && MatchLDAP(s).None?
  {
    var parts := ["", g.variant, "v=" + g.version,
                  Join(["m=" + g.memory, "t=" + g.time, "p=" + g.parallelism], ','), g.salt, g.key];
    NumbersPrinted(g.memory, g.time, g.parallelism);
    SplitOfJoin(parts, '$');
    PrintedHead(parts, 'a');
    NeitherBcryptNorLDAP(PrintArgon2(g));
  }

  /** What Normalize makes of an argon2 PHC string, and of what looks like one but has no salt or key. */
  lemma NormalizesArgon2(g: Argon2Groups)
    requires PrintableArgon2(g)
    ensures Normalize(PrintArgon2(g)) == if g.salt != "" && g.key != "" then Ok(OfArgon2(PrintArgon2(g), g)) else Ambiguous
  {
    Argon2Printed(g);
    OnlyArgon2(g);
  }

  /** What CMF's password object holds of a PHC string. */
  lemma {:induction false} PasswordHolds(g: Argon2Groups, h: PBKDF2Groups)
    requires PrintableArgon2(g) && g.salt != "" && g.key != ""
    requires PrintablePBKDF2(h) && IsDigits(h.iterations) && h.salt != "" && h.key != ""
    ensures Normalize(PrintArgon2(g)).Ok? && Normalize(PrintPBKDF2(h)).Ok?
    ensures var p := Normalize(PrintArgon2(g)).password;
            && p.algorithm == Argon2 && p.phcString == PrintArgon2(g) && p.portable
            && p.hash == HashValue(g.key, Base64, "") && p.salt == Some(SaltValue(g.salt, Base64, Prefix))
            && p.params.Keys == {"variant", "version", "memory", "time", "parallelism"}
            && p.params["variant"] == Text(g.variant) && p.params["version"] == Text(g.version)
            && p.params["memory"] == Number(Atoi(g.memory)) && p.params["time"] == Number(Atoi(g.time))
            && p.params["parallelism"] == Number(Atoi(g.parallelism))
    ensures var p := Normalize(PrintPBKDF2(h)).password;
            && p.algorithm == PBKDF2 && p.phcString == "" && p.portable
            && p.hash == HashValue(h.key, Base64, h.digest) && p.salt == Some(SaltValue(h.salt, Base64, Prefix))
            && p.params.Keys == {"digest", "iterations"}
            && p.params["digest"] == Text(h.digest) && p.params["iterations"] == Number(Atoi(h.iterations))
  {
    NormalizesArgon2(g);
    NormalizesPBKDF2(h);
  }

  lemma OnlyPBKDF2(g: PBKDF2Groups)
    requires PrintablePBKDF2(g)
    ensures var s := PrintPBKDF2(g);
            !MatchesBcrypt(s) && MatchArgon2(s).None? && MatchScrypt(s).None? && MatchLDAP(s).None?
  {
    var parts := ["", "pbkdf2-" + g.digest, "i=" + g.iterations, g.salt, g.key];
    SplitOfJoin(parts, '$');
    PrintedHead(parts, 'p');
    NeitherBcryptNorLDAP(PrintPBKDF2(g));
    assert parts[1][0] == 'p';
  }

  lemma NormalizesPBKDF2(g: PBKDF2Groups)
    requires PrintablePBKDF2(g)
    ensures Normalize(PrintPBKDF2(g)) == if IsDigits(g.iterations) && g.salt != "" && g.key != "" then Ok(OfPBKDF2(g)) else Ambiguous
  {
    PBKDF2Printed(g);
    OnlyPBKDF2(g);
  }
}
