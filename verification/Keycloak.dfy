/** Password hashes in the form Keycloak stores them, translated from CMF and back. */
module Keycloak {

  import opened BinaryText
  import opened Decimals
  import opened Options
  import opened PasswordHash

  /** Keycloak's hash provider IDs: pbkdf2, pbkdf2-sha256, pbkdf2-sha512, argon2, and those with no CMF equivalent. */
  datatype Provider = ProviderSHA1 | ProviderSHA256 | ProviderSHA512 | ProviderArgon2 | ProviderOther

  /** secretData and credentialData, decoded from JSON. */
  datatype Credential = Credential(
    value: string, salt: string, iterations: int, algorithm: Provider, params: map<string, seq<string>>)

  datatype Error = NotPortable | UnknownDigest | NoIterations | NoSalt | NotBinary | NoPHC | MalformedPHC | UnknownVersion
                 | UnknownProvider | NotNormal

  datatype Result<T> = Success(value: T) | Failure(error: Error)

  function IntParam(params: map<string, Param>, key: string): Option<int> {
    if key in params && params[key].Number? then Some(params[key].number) else None
  }

  function TextParam(params: map<string, Param>, key: string): string {
    if key in params && params[key].Text? then params[key].text else ""
  }

  function DigestOf(p: Password): string {
    var digest := TextParam(p.params, "digest");
    if digest == "" then p.hash.digest else digest
  }

  /** keycloakPBKDF2Provider. */
  function ProviderOf(digest: string): Option<Provider> {
    if digest == "sha1" then Some(ProviderSHA1)
    else if digest == "sha256" then Some(ProviderSHA256)
    else if digest == "sha512" then Some(ProviderSHA512)
    else None
  }

  /** Keycloak's label of an argon2 version. */
  function LabelOf(version: string): Option<string> {
    if version == "19" then Some("1.3") else if version == "16" then Some("1.0") else None
  }

  function VersionOf(tag: string): Option<string> {
    if tag == "1.3" then Some("19") else if tag == "1.0" then Some("16") else None
  }

  /** The bytes of a password's hash and salt. */
  function KeyOf(p: Password): Option<seq<Byte>> {
    DecodeBinary(p.hash.value, p.hash.encoding)
  }

  function SaltOf(p: Password): Option<seq<Byte>> {
    if p.salt.None? then None else DecodeBinary(p.salt.value.value, p.salt.value.encoding)
  }

  function FromPBKDF2(p: Password): Result<Credential> {
    var provider := ProviderOf(DigestOf(p));
    if provider.None? then Failure(UnknownDigest)
    else
      var iterations := IntParam(p.params, "iterations");
      if iterations.None? || iterations.value == 0 then Failure(NoIterations)
      else if p.salt.None? then Failure(NoSalt)
      else
        var key, salt := KeyOf(p), SaltOf(p);
        if key.None? || salt.None? then Failure(NotBinary)
        else Success(Credential(EncodePadded(false, key.value), EncodePadded(false, salt.value),
                                iterations.value, provider.value, map[]))
  }

  function Argon2Params(variant: string, version: string, hashLength: string, memory: string, parallelism: string): map<string, seq<string>> {
    map["type" := [variant], "version" := [version], "hashLength" := [hashLength], "memory" := [memory],
        "parallelism" := [parallelism]]
  }

  function FromArgon2(g: Argon2Groups): Result<Credential>
    requires PrintableArgon2(g)
  {
    var version := LabelOf(g.version);
    if version.None? then Failure(UnknownVersion)
    else
      var salt, key := DecodeBinary(g.salt, Base64), DecodeBinary(g.key, Base64);
      if salt.None? || key.None? then Failure(NotBinary)
      else Success(Credential(EncodePadded(false, key.value), EncodePadded(false, salt.value), Atoi(g.time), ProviderArgon2,
                              Argon2Params(g.variant[6..], version.value, Itoa(|key.value|), g.memory, g.parallelism)))
  }

  /** ToKeycloakCredential. */
  function ToCredential(p: Password): Result<Credential> {
    if !p.portable then Failure(NotPortable)
    else
      match p.algorithm
      case PBKDF2 => FromPBKDF2(p)
      case Argon2 =>
        if p.phcString == "" then Failure(NoPHC)
        else if MatchArgon2(p.phcString).None? then Failure(MalformedPHC)
        else
          Argon2Read(p.phcString);
          FromArgon2(MatchArgon2(p.phcString).value)
      case _ => Failure(UnknownProvider)
  }

  function DigestOfProvider(algorithm: Provider): string {
    match algorithm
    case ProviderSHA256 => "sha256"
    case ProviderSHA512 => "sha512"
    case _ => "sha1"
  }

  function FirstParam(params: map<string, seq<string>>, k: string): string {
    if k in params && params[k] != [] then params[k][0] else ""
  }

  function ToPBKDF2(c: Credential, salt: seq<Byte>, key: seq<Byte>): Result<Password> {
    match Normalize(PrintPBKDF2(PBKDF2Groups(DigestOfProvider(c.algorithm), Itoa(c.iterations),
                                             EncodeRaw(false, salt), EncodeRaw(false, key))))
    case Ok(p) => Success(p.(params := p.params["keylen" := Number(|key|)]))
    case _ => Failure(NotNormal)
  }

  function Argon2Of(params: map<string, seq<string>>, version: string, time: string, salt: string, key: string): Argon2Groups {
    Argon2Groups("argon2" + FirstParam(params, "type"), version, FirstParam(params, "memory"), time,
                 FirstParam(params, "parallelism"), salt, key)
  }

  function ToArgon2(c: Credential, salt: seq<Byte>, key: seq<Byte>): Result<Password> {
    var version := VersionOf(FirstParam(c.params, "version"));
    if version.None? then Failure(UnknownVersion)
    else
      match Normalize(PrintArgon2(Argon2Of(c.params, version.value, Itoa(c.iterations), EncodeRaw(false, salt), EncodeRaw(false, key))))
      case Ok(p) => Success(p)
      case _ => Failure(NotNormal)
  }

  predicate IsPBKDF2Provider(algorithm: Provider) {
    algorithm == ProviderSHA1 || algorithm == ProviderSHA256 || algorithm == ProviderSHA512
  }

  /** NormalizeKeycloakCredential. */
  function FromCredential(c: Credential): Result<Password> {
    var key, salt := DecodeBinary(c.value, Base64), DecodeBinary(c.salt, Base64);
    if key.None? || salt.None? then Failure(NotBinary)
    else if IsPBKDF2Provider(c.algorithm) then ToPBKDF2(c, salt.value, key.value)
    else if c.algorithm == ProviderArgon2 then ToArgon2(c, salt.value, key.value)
    else Failure(UnknownProvider)
  }

  /** What a credential made of a password says: the password's own key and
      salt, bytes for bytes, and its parameters under Keycloak's names. */
  lemma {:induction false} CredentialSays(p: Password, c: Credential)
    requires ToCredential(p) == Success(c)
    ensures p.portable && p.algorithm in {PBKDF2, Argon2}
    ensures p.algorithm == PBKDF2 ==>
              var digest := if "digest" in p.params && p.params["digest"].Text? && p.params["digest"].text != ""
                            then p.params["digest"].text else p.hash.digest;
              && DecodeBinary(c.value, Base64) == DecodeBinary(p.hash.value, p.hash.encoding)
              && p.salt.Some? && DecodeBinary(c.salt, Base64) == DecodeBinary(p.salt.value.value, p.salt.value.encoding)
              && "iterations" in p.params && p.params["iterations"] == Number(c.iterations) && c.params == map[]
              && match c.algorithm
                 case ProviderSHA1 => digest == "sha1"
                 case ProviderSHA256 => digest == "sha256"
                 case ProviderSHA512 => digest == "sha512"
                 case _ => false
    ensures p.algorithm == Argon2 ==>
              && MatchArgon2(p.phcString).Some?
              && var g := MatchArgon2(p.phcString).value;
                 var key := DecodeBinary(g.key, Base64);
                 && c.algorithm == ProviderArgon2 && IsDigits(g.time) && c.iterations == Atoi(g.time)
                 && key.Some? && DecodeBinary(c.value, Base64) == key
                 && DecodeBinary(c.salt, Base64) == DecodeBinary(g.salt, Base64)
                 && c.params.Keys == {"type", "version", "hashLength", "memory", "parallelism"}
                 && c.params["memory"] == [g.memory] && c.params["parallelism"] == [g.parallelism]
                 && c.params["hashLength"] == [Itoa(|key.value|)]
                 && (if g.variant == "argon2id" then c.params["type"] == ["id"] else g.variant == "argon2i" && c.params["type"] == ["i"])
                 && (if g.version == "19" then c.params["version"] == ["1.3"] else g.version == "16" && c.params["version"] == ["1.0"])
  {
    if p.algorithm == PBKDF2 {
      Base64RoundTrip(KeyOf(p).value, false);
      Base64RoundTrip(SaltOf(p).value, false);
    } else {
      Argon2Read(p.phcString);
      Argon2CredentialSays(MatchArgon2(p.phcString).value, c);
      TypesOfVariants();
    }
  }

  lemma {:induction false} Argon2CredentialSays(g: Argon2Groups, c: Credential)
    requires PrintableArgon2(g) && FromArgon2(g) == Success(c)
    ensures var key := DecodeBinary(g.key, Base64);
            && c.algorithm == ProviderArgon2 && c.iterations == Atoi(g.time)
            && key.Some? && DecodeBinary(c.value, Base64) == key
            && DecodeBinary(c.salt, Base64) == DecodeBinary(g.salt, Base64)
            && c.params.Keys == {"type", "version", "hashLength", "memory", "parallelism"}
            && c.params["memory"] == [g.memory] && c.params["parallelism"] == [g.parallelism]
            && c.params["hashLength"] == [Itoa(|key.value|)] && c.params["type"] == [g.variant[6..]]
            && c.params["version"] == (if g.version == "19" then ["1.3"] else ["1.0"]) && g.version in {"16", "19"}
  {
    Base64RoundTrip(DecodeBinary(g.key, Base64).value, false);
    Base64RoundTrip(DecodeBinary(g.salt, Base64).value, false);
  }

  lemma {:induction false} TypesOfVariants()
    ensures "argon2id"[6..] == "id" && "argon2i"[6..] == "i"
  {
  }

  /** Which passwords Keycloak takes. */
  lemma {:induction false} TranslatesExactly(p: Password)
    ensures ToCredential(p).Success? <==>
              && p.portable
              && match p.algorithm
                 case PBKDF2 =>
                   && DigestOf(p) in {"sha1", "sha256", "sha512"}
                   && "iterations" in p.params && p.params["iterations"].Number? && p.params["iterations"].number != 0
                   && DecodeBinary(p.hash.value, p.hash.encoding).Some?
                   && p.salt.Some? && DecodeBinary(p.salt.value.value, p.salt.value.encoding).Some?
                 case Argon2 =>
                   && p.phcString != "" && MatchArgon2(p.phcString).Some?
                   && var g := MatchArgon2(p.phcString).value;
                      g.version in {"16", "19"} && DecodeBinary(g.key, Base64).Some? && DecodeBinary(g.salt, Base64).Some?
                 case _ => false
  {
    if p.algorithm == Argon2 && MatchArgon2(p.phcString).Some? {
      Argon2Read(p.phcString);
    }
  }

  lemma EncodedIsFree(bs: seq<Byte>)
    ensures Free(EncodeRaw(false, bs), '$') && (EncodeRaw(false, bs) == "" <==> bs == [])
  {
    ValuesOfDigits(false, Sextets(bs));
  }

  lemma VersionsComeBack(version: string, tag: string)
    ensures LabelOf(version).Some? ==> VersionOf(LabelOf(version).value) == Some(version)
    ensures VersionOf(tag).Some? ==> LabelOf(VersionOf(tag).value) == Some(tag)
  {
  }

  lemma ParamsComeBack(variant: string, version: string, hashLength: string, memory: string, parallelism: string)
    ensures var params := Argon2Params(variant, version, hashLength, memory, parallelism);
            && FirstParam(params, "version") == version
            && forall v, time, salt, key ::
                 Argon2Of(params, v, time, salt, key) == Argon2Groups("argon2" + variant, v, memory, time, parallelism, salt, key)
  {
  }

  /** The groups of the PHC string a trip to Keycloak and back makes of g's. */
  function Rewritten(g: Argon2Groups, salt: seq<Byte>, key: seq<Byte>): Argon2Groups
    requires IsDigits(g.time)
  {
    g.(time := Itoa(Atoi(g.time)), salt := EncodeRaw(false, salt), key := EncodeRaw(false, key))
  }

  lemma RewrittenArgon2(g: Argon2Groups, salt: seq<Byte>, key: seq<Byte>)
    requires PrintableArgon2(g) && FromArgon2(g).Success?
    ensures PrintableArgon2(Rewritten(g, salt, key))
    ensures ToArgon2(FromArgon2(g).value, salt, key)
            == if salt != [] && key != [] then Success(OfArgon2(PrintArgon2(Rewritten(g, salt, key)), Rewritten(g, salt, key)))
               else Failure(NotNormal)
  {
    EncodedIsFree(salt);
    EncodedIsFree(key);
    Tagged("argon2", g.variant);
    NormalizesArgon2(Rewritten(g, salt, key));
    VersionsComeBack(g.version, "");
    ParamsComeBack(g.variant[6..], LabelOf(g.version).value, Itoa(|DecodeBinary(g.key, Base64).value|), g.memory, g.parallelism);
  }

  /** Going to Keycloak and back rewrites the time and the binary parts of a PHC string, and nothing else. */
  lemma BackFromArgon2(g: Argon2Groups)
    requires PrintableArgon2(g) && FromArgon2(g).Success?
    ensures var salt, key := DecodeBinary(g.salt, Base64).value, DecodeBinary(g.key, Base64).value;
            && PrintableArgon2(Rewritten(g, salt, key))
            && FromCredential(FromArgon2(g).value)
               == if salt != [] && key != [] then Success(OfArgon2(PrintArgon2(Rewritten(g, salt, key)), Rewritten(g, salt, key)))
                  else Failure(NotNormal)
  {
    var salt, key := DecodeBinary(g.salt, Base64).value, DecodeBinary(g.key, Base64).value;
    RewrittenArgon2(g, salt, key);
    Base64RoundTrip(salt, false);
    Base64RoundTrip(key, false);
  }

  lemma SameArgon2(g: Argon2Groups, h: Argon2Groups)
    requires PrintableArgon2(g) && PrintableArgon2(h) && g.salt != "" && g.key != ""
    requires PrintArgon2(g) == PrintArgon2(h)
    ensures g == h
  {
    Argon2Printed(g);
    Argon2Printed(h);
  }

  lemma RewrittenIsSame(g: Argon2Groups)
    requires PrintableArgon2(g) && DecodeBinary(g.salt, Base64).Some? && DecodeBinary(g.key, Base64).Some?
    ensures Rewritten(g, DecodeBinary(g.salt, Base64).value, DecodeBinary(g.key, Base64).value) == g
            <==> CanonicalDecimal(g.time) && ParseDigits(g.time) <= MAX_INT && Canonical(g.salt) && Canonical(g.key)
  {
    DecimalsComeBack(g.time);
    CanonicalTextsComeBack(g.salt);
    CanonicalTextsComeBack(g.key);
  }

  /** What a round trip needs of an argon2 PHC string: a version Keycloak has, a
      time that fits an int and has no leading zeros, a salt and a key as the
      encoder writes them. */
  predicate CanonicalArgon2(g: Argon2Groups) {
    && (g.version == "16" || g.version == "19")
    && CanonicalDecimal(g.time) && ParseDigits(g.time) <= MAX_INT
    && Canonical(g.salt) && Canonical(g.key)
  }

  lemma Argon2GroupsComeBack(g: Argon2Groups)
    requires PrintableArgon2(g) && g.salt != "" && g.key != ""
    ensures FromArgon2(g).Success? && FromCredential(FromArgon2(g).value) == Success(OfArgon2(PrintArgon2(g), g))
            <==> CanonicalArgon2(g)
  {
    CanonicalTextsComeBack(g.salt);
    CanonicalTextsComeBack(g.key);
    if FromArgon2(g).Success? {
      BackFromArgon2(g);
      RewrittenIsSame(g);
      var h := Rewritten(g, DecodeBinary(g.salt, Base64).value, DecodeBinary(g.key, Base64).value);
      if PrintArgon2(h) == PrintArgon2(g) {
        SameArgon2(g, h);
      }
    }
  }

  /** An argon2 PHC string comes back from Keycloak exactly when it is canonical. */
  lemma Argon2RoundTrip(s: string)
    requires MatchArgon2(s).Some?
    ensures Normalize(s).Ok? && Normalize(s).password.phcString == s
    ensures var p := Normalize(s).password;
            ToCredential(p).Success? && FromCredential(ToCredential(p).value) == Success(p)
            <==> CanonicalArgon2(MatchArgon2(s).value)
  {
    Argon2Read(s);
    var g := MatchArgon2(s).value;
    NormalizesArgon2(g);
    Argon2GroupsComeBack(g);
  }

  lemma ProvidersComeBack(digest: string)
    ensures ProviderOf(digest).Some? ==>
              && IsDigest(digest) && IsPBKDF2Provider(ProviderOf(digest).value)
              && DigestOfProvider(ProviderOf(digest).value) == digest
  {
  }

  lemma NumbersPrintPlainly(n: int)
    ensures Free(Itoa(n), '$') && (IsDigits(Itoa(n)) <==> n >= 0)
    ensures 0 <= n <= MAX_INT ==> Atoi(Itoa(n)) == n
  {
    if n >= 0 {
      ParseOfDigits(n);
    } else {
      assert Itoa(n)[0] == '-';
    }
  }

  function PBKDF2Password(digest: string, iterations: int, salt: seq<Byte>, key: seq<Byte>): Password {
    Password(PBKDF2, "", HashValue(EncodeRaw(false, key), Base64, digest), Salted(EncodeRaw(false, salt)),
             map["digest" := Text(digest), "iterations" := Number(iterations), "keylen" := Number(|key|)], true)
  }

  lemma BinaryPartsOf(digest: string, iterations: int, salt: seq<Byte>, key: seq<Byte>)
    ensures var p := PBKDF2Password(digest, iterations, salt, key); KeyOf(p) == Some(key) && SaltOf(p) == Some(salt)
  {
    Base64RoundTrip(salt, false);
    Base64RoundTrip(key, false);
  }

  lemma NumbersOf(digest: string, iterations: int, salt: seq<Byte>, key: seq<Byte>)
    ensures var p := PBKDF2Password(digest, iterations, salt, key);
            IntParam(p.params, "iterations") == Some(iterations) && IntParam(p.params, "keylen") == Some(|key|)
  {
    var params := PBKDF2Password(digest, iterations, salt, key).params;
    assert params["iterations"] == Number(iterations) && params["keylen"] == Number(|key|);
  }

  lemma DigestOfParts(digest: string, iterations: int, salt: seq<Byte>, key: seq<Byte>)
    requires digest != ""
    ensures DigestOf(PBKDF2Password(digest, iterations, salt, key)) == digest
  {
    assert PBKDF2Password(digest, iterations, salt, key).params["digest"] == Text(digest);
  }

  lemma BackFromPBKDF2(c: Credential, salt: seq<Byte>, key: seq<Byte>)
    requires IsPBKDF2Provider(c.algorithm) && c.iterations <= MAX_INT
    ensures ToPBKDF2(c, salt, key)
            == if c.iterations >= 0 && salt != [] && key != []
               then Success(PBKDF2Password(DigestOfProvider(c.algorithm), c.iterations, salt, key))
               else Failure(NotNormal)
  {
    EncodedIsFree(salt);
    EncodedIsFree(key);
    NumbersPrintPlainly(c.iterations);
    NormalizesPBKDF2(PBKDF2Groups(DigestOfProvider(c.algorithm), Itoa(c.iterations), EncodeRaw(false, salt), EncodeRaw(false, key)));
  }

  /** A PBKDF2 password Keycloak takes, however its hash and salt are encoded,
      comes back exactly when its iterations are positive and its salt and key
      are not empty, and then with the same digest, iterations, salt and key. */
  lemma PBKDF2RoundTrip(p: Password, c: Credential)
    requires p.algorithm == PBKDF2 && ToCredential(p) == Success(c)
    requires c.iterations <= MAX_INT
    ensures var back := FromCredential(c);
            && (back.Success? <==> c.iterations > 0 && SaltOf(p) != Some([]) && KeyOf(p) != Some([]))
            && (back.Success? ==>
                  && back.value.algorithm == PBKDF2
                  && DigestOf(back.value) == DigestOf(p)
                  && IntParam(back.value.params, "iterations") == IntParam(p.params, "iterations")
                  && SaltOf(back.value) == SaltOf(p) && KeyOf(back.value) == KeyOf(p)
                  && IntParam(back.value.params, "keylen") == Some(|KeyOf(p).value|))
  {
    var salt, key := SaltOf(p).value, KeyOf(p).value;
    Base64RoundTrip(salt, false);
    Base64RoundTrip(key, false);
    ProvidersComeBack(DigestOf(p));
    BackFromPBKDF2(c, salt, key);
    BinaryPartsOf(DigestOf(p), c.iterations, salt, key);
    NumbersOf(DigestOf(p), c.iterations, salt, key);
    DigestOfParts(DigestOf(p), c.iterations, salt, key);
  }

  lemma ReadPBKDF2Translates(g: PBKDF2Groups)
    requires PrintablePBKDF2(g) && IsDigits(g.iterations)
    ensures var p, salt, key := OfPBKDF2(g), DecodeBinary(g.salt, Base64), DecodeBinary(g.key, Base64);
            ToCredential(p) ==
              if ProviderOf(g.digest).None? then Failure(UnknownDigest)
              else if Atoi(g.iterations) == 0 then Failure(NoIterations)
              else if key.None? || salt.None? then Failure(NotBinary)
              else Success(Credential(EncodePadded(false, key.value), EncodePadded(false, salt.value), Atoi(g.iterations),
                                      ProviderOf(g.digest).value, map[]))
  {
    var params := OfPBKDF2(g).params;
    assert params["digest"] == Text(g.digest) && params["iterations"] == Number(Atoi(g.iterations));
  }

  lemma ReadPBKDF2ComesBack(g: PBKDF2Groups, salt: seq<Byte>, key: seq<Byte>)
    requires IsDigits(g.iterations)
    ensures PBKDF2Password(g.digest, Atoi(g.iterations), salt, key)
            == OfPBKDF2(g).(params := OfPBKDF2(g).params["keylen" := Number(|key|)])
            <==> EncodeRaw(false, salt) == g.salt && EncodeRaw(false, key) == g.key
  {
  }

  /** A PBKDF2 PHC string goes to Keycloak and comes back as the same password,
      with its key's length noted, exactly if it has iterations and its salt
      and key are as the encoder writes them. */
  lemma PBKDF2StringRoundTrip(s: string)
    requires MatchPBKDF2(s).Some?
    ensures Normalize(s) == Ok(OfPBKDF2(MatchPBKDF2(s).value))
    ensures var g, p := MatchPBKDF2(s).value, Normalize(s).password;
            (&& ToCredential(p).Success?
             && FromCredential(ToCredential(p).value) == Success(p.(params := p.params["keylen" := Number(|KeyOf(p).value|)])))
            <==> Atoi(g.iterations) > 0 && Canonical(g.salt) && Canonical(g.key)
  {
    PBKDF2Read(s);
    var g := MatchPBKDF2(s).value;
    NormalizesPBKDF2(g);
    ReadPBKDF2Translates(g);
    CanonicalTextsComeBack(g.salt);
    CanonicalTextsComeBack(g.key);
    var p := OfPBKDF2(g);
    if ToCredential(p).Success? {
      var c, salt, key := ToCredential(p).value, DecodeBinary(g.salt, Base64).value, DecodeBinary(g.key, Base64).value;
      Base64RoundTrip(salt, false);
      Base64RoundTrip(key, false);
      ProvidersComeBack(g.digest);
      BackFromPBKDF2(c, salt, key);
      ReadPBKDF2ComesBack(g, salt, key);
    }
  }

  /** A password credential as Keycloak writes it. */
  predicate Stored(c: Credential, salt: seq<Byte>, key: seq<Byte>) {
    && salt != [] && key != [] && c.salt == EncodePadded(false, salt) && c.value == EncodePadded(false, key)
    && 0 < c.iterations <= MAX_INT
    && ((IsPBKDF2Provider(c.algorithm) && c.params == map[])
        || (c.algorithm == ProviderArgon2 && IsDigits(FirstParam(c.params, "memory")) && IsDigits(FirstParam(c.params, "parallelism"))
            && (FirstParam(c.params, "version") == "1.0" || FirstParam(c.params, "version") == "1.3")
            && (FirstParam(c.params, "type") == "id" || FirstParam(c.params, "type") == "i")
            && c.params == Argon2Params(FirstParam(c.params, "type"), FirstParam(c.params, "version"), Itoa(|key|),
                                        FirstParam(c.params, "memory"), FirstParam(c.params, "parallelism"))))
  }

  lemma StoredIsRead(c: Credential, salt: seq<Byte>, key: seq<Byte>)
    requires Stored(c, salt, key)
    ensures FromCredential(c) == if c.algorithm == ProviderArgon2 then ToArgon2(c, salt, key) else ToPBKDF2(c, salt, key)
  {
    Base64RoundTrip(salt, false);
    Base64RoundTrip(key, false);
  }

  lemma TranslatesPBKDF2(digest: string, iterations: int, salt: seq<Byte>, key: seq<Byte>)
    requires ProviderOf(digest).Some? && iterations != 0
    ensures ToCredential(PBKDF2Password(digest, iterations, salt, key))
            == Success(Credential(EncodePadded(false, key), EncodePadded(false, salt), iterations, ProviderOf(digest).value, map[]))
  {
    BinaryPartsOf(digest, iterations, salt, key);
    NumbersOf(digest, iterations, salt, key);
    DigestOfParts(digest, iterations, salt, key);
  }

  lemma StoredPBKDF2ComesBack(c: Credential, salt: seq<Byte>, key: seq<Byte>)
    requires Stored(c, salt, key) && IsPBKDF2Provider(c.algorithm)
    ensures ToPBKDF2(c, salt, key).Success? && ToCredential(ToPBKDF2(c, salt, key).value) == Success(c)
  {
    BackFromPBKDF2(c, salt, key);
    TranslatesPBKDF2(DigestOfProvider(c.algorithm), c.iterations, salt, key);
  }

  /** The groups of the PHC string of a stored argon2 credential. */
  function StoredGroups(c: Credential, salt: seq<Byte>, key: seq<Byte>): (g: Argon2Groups)
    requires Stored(c, salt, key) && c.algorithm == ProviderArgon2
    ensures "argon2" <= g.variant && g.variant[6..] == FirstParam(c.params, "type")
  {
    Untagged("argon2", FirstParam(c.params, "type"));
    Argon2Of(c.params, VersionOf(FirstParam(c.params, "version")).value, Itoa(c.iterations),
             EncodeRaw(false, salt), EncodeRaw(false, key))
  }

  lemma StoredArgon2Normalizes(c: Credential, salt: seq<Byte>, key: seq<Byte>)
    requires Stored(c, salt, key) && c.algorithm == ProviderArgon2
    ensures var g := StoredGroups(c, salt, key);
            PrintableArgon2(g) && ToArgon2(c, salt, key) == Success(OfArgon2(PrintArgon2(g), g))
  {
    EncodedIsFree(salt);
    EncodedIsFree(key);
    NumbersPrintPlainly(c.iterations);
    NormalizesArgon2(StoredGroups(c, salt, key));
  }

  lemma StoredArgon2Translates(c: Credential, salt: seq<Byte>, key: seq<Byte>)
    requires Stored(c, salt, key) && c.algorithm == ProviderArgon2 && PrintableArgon2(StoredGroups(c, salt, key))
    ensures FromArgon2(StoredGroups(c, salt, key)) == Success(c)
  {
    Base64RoundTrip(salt, false);
    Base64RoundTrip(key, false);
    NumbersPrintPlainly(c.iterations);
    VersionsComeBack("", FirstParam(c.params, "version"));
  }

  lemma TranslatesArgon2(g: Argon2Groups)
    requires PrintableArgon2(g) && g.salt != "" && g.key != ""
    ensures ToCredential(OfArgon2(PrintArgon2(g), g)) == FromArgon2(g)
  {
    Argon2Printed(g);
  }

  lemma StoredArgon2ComesBack(c: Credential, salt: seq<Byte>, key: seq<Byte>)
    requires Stored(c, salt, key) && c.algorithm == ProviderArgon2
    ensures ToArgon2(c, salt, key).Success? && ToCredential(ToArgon2(c, salt, key).value) == Success(c)
  {
    StoredArgon2Normalizes(c, salt, key);
    StoredArgon2Translates(c, salt, key);
    EncodedIsFree(salt);
    EncodedIsFree(key);
    TranslatesArgon2(StoredGroups(c, salt, key));
  }

  /** A credential Keycloak stored is the one it gets back. */
  lemma StoredCredentialsComeBack(c: Credential, salt: seq<Byte>, key: seq<Byte>)
    requires Stored(c, salt, key)
    ensures FromCredential(c).Success? && ToCredential(FromCredential(c).value) == Success(c)
  {
    StoredIsRead(c, salt, key);
    if c.algorithm == ProviderArgon2 {
      StoredArgon2ComesBack(c, salt, key);
    } else {
      StoredPBKDF2ComesBack(c, salt, key);
    }
  }
}
