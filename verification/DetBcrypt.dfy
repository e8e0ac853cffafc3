/** The printed form of a bcrypt hash, its parser, and the comparison of a hash with a password.
    The cipher itself is a parameter: any deterministic function. */
module DetBcrypt {
  import opened Wrappers

  type byte = x: int | 0 <= x < 256

  const DOLLAR: byte := 36
  const PLUS: byte := 43
  const MINUS: byte := 45
  const ZERO: byte := 48
  const MAJOR: byte := 50
  const MINOR: byte := 97
  const MIN_COST := 1
  const MAX_COST := 31
  const DEFAULT_COST := 10
  const SALT_SIZE: nat := 22
  const HASH_SIZE: nat := 31
  const MIN_HASH_SIZE: nat := 59

  datatype Record = Record(hash: seq<byte>, salt: seq<byte>, cost: int, major: byte, minor: byte)

  datatype Error =
    | HashTooShort
    | InvalidHashPrefix(prefix: byte)
    | HashVersionTooNew(version: byte)
    | NotANumber
    | InvalidCost(cost: int)
    | CipherFailed
    | Mismatched

  datatype Result<T> = Ok(value: T) | Err(error: Error)

  // Password, cost and encoded salt to encoded digest; it may fail.
  type Cipher = (seq<byte>, int, seq<byte>) -> Option<seq<byte>>

  // What both constructors establish.
  predicate WellFormed(p: Record) {
    |p.salt| == SALT_SIZE && MIN_COST <= p.cost <= MAX_COST
  }

  // Cut or filled with zero bytes to n bytes.
  function Field(s: seq<byte>, n: nat): (r: seq<byte>)
    ensures |r| == n
  {
    if |s| >= n then s[..n] else s + seq(n - |s|, _ => 0)
  }

  // A cost in two decimal digits.
  function Digits(cost: int): seq<byte>
    requires 0 <= cost < 100
  {
    [ZERO + cost / 10, ZERO + cost % 10]
  }

  function Version(major: byte, minor: byte): seq<byte> {
    [DOLLAR, major] + (if minor != 0 then [minor] else []) + [DOLLAR]
  }

  // The printed form: the version, the cost, the salt and 31 bytes of hash.
  function Layout(p: Record): seq<byte>
    requires WellFormed(p)
  {
    Version(p.major, p.minor) + Digits(p.cost) + [DOLLAR] + p.salt + Field(p.hash, HASH_SIZE)
  }

  function Digit(b: byte): Option<int> {
    if ZERO <= b <= ZERO + 9 then Some(b - ZERO) else None
  }

  // A decimal number of two bytes, the first of which may be a sign.
  function Atoi(x: byte, y: byte): Option<int> {
    if Digit(y).None? then None
    else if x == PLUS then Digit(y)
    else if x == MINUS then Some(-Digit(y).value)
    else if Digit(x).None? then None
    else Some(10 * Digit(x).value + Digit(y).value)
  }

  function CheckCost(cost: int): Option<Error> {
    if cost < MIN_COST || cost > MAX_COST then Some(InvalidCost(cost)) else None
  }

  function ParseVersion(s: seq<byte>): Result<(byte, byte, nat)>
    requires |s| >= 3
  {
    if s[0] != DOLLAR then Err(InvalidHashPrefix(s[0]))
    else if s[1] > MAJOR then Err(HashVersionTooNew(s[1]))
    else if s[2] != DOLLAR then Ok((s[1], s[2], 4))
    else Ok((s[1], 0, 3))
  }

  function ParseCost(s: seq<byte>): Result<int>
    requires |s| >= 2
  {
    match Atoi(s[0], s[1])
    case None => Err(NotANumber)
    case Some(cost) => if CheckCost(cost).Some? then Err(InvalidCost(cost)) else Ok(cost)
  }

  function Parse(s: seq<byte>): (r: Result<Record>)
    ensures r.Ok? ==> WellFormed(r.value)
  {
    if |s| < MIN_HASH_SIZE then Err(HashTooShort)
    else
      match ParseVersion(s)
      case Err(e) => Err(e)
      case Ok((major, minor, n)) =>
        match ParseCost(s[n..])
        case Err(e) => Err(e)
        case Ok(cost) =>
          var rest := s[n + 3..];
          Ok(Record(rest[SALT_SIZE..], rest[..SALT_SIZE], cost, major, minor))
  }

  class Hashed {
    var hash: seq<byte>
    var salt: seq<byte>
    var cost: int
    var major: byte
    var minor: byte

    function View(): Record
      reads this
    {
      Record(hash, salt, cost, major, minor)
    }

    constructor ()
      ensures View() == Record([], [], 0, 0, 0)
    {
      hash, salt, cost, major, minor := [], [], 0, 0, 0;
    }

    /** Prints through a buffer of 60 bytes and a moving cursor. */
    method Hash() returns (r: seq<byte>)
      requires WellFormed(View())
      ensures r == Layout(View())
    {
      var arr := new byte[60](_ => 0);
      arr[0] := DOLLAR;
      arr[1] := major;
      var n := 2;
      if minor != 0 {
        arr[2] := minor;
        n := 3;
      }
      arr[n] := DOLLAR;
      n := n + 1;
      assert arr[..n] == Version(major, minor);
      n := Append(arr, n, Digits(cost), 2);
      arr[n] := DOLLAR;
      n := n + 1;
      assert arr[..n] == Version(major, minor) + Digits(cost) + [DOLLAR];
      n := Append(arr, n, salt, SALT_SIZE);
      assert arr[..n] == Version(major, minor) + Digits(cost) + [DOLLAR] + salt;
      n := Append(arr, n, hash, HASH_SIZE);
      r := arr[..n];
    }

    method DecodeVersion(s: seq<byte>) returns (r: Result<nat>)
      requires |s| >= 3
      modifies this
      ensures match ParseVersion(s)
              case Err(e) => r == Err(e) && View() == old(View())
              case Ok((major, minor, n)) =>
                && r == Ok(n)
                && View() == old(View()).(
                     major := major, minor := if s[2] != DOLLAR then minor else old(this.minor))
    {
      if s[0] != DOLLAR {
        return Err(InvalidHashPrefix(s[0]));
      }
      if s[1] > MAJOR {
        return Err(HashVersionTooNew(s[1]));
      }
      major := s[1];
      var n := 3;
      if s[2] != DOLLAR {
        minor := s[2];
        n := n + 1;
      }
      r := Ok(n);
    }

    method DecodeCost(s: seq<byte>) returns (r: Result<nat>)
      requires |s| >= 2
      modifies this
      ensures match ParseCost(s)
              case Err(e) => r == Err(e) && View() == old(View())
              case Ok(cost) => r == Ok(3) && View() == old(View()).(cost := cost)
    {
      var number := Atoi(s[0], s[1]);
      if number.None? {
        return Err(NotANumber);
      }
      var bad := CheckCost(number.value);
      if bad.Some? {
        return Err(bad.value);
      }
      cost := number.value;
      r := Ok(3);
    }
  }

  // The source's copy into the buffer at the cursor, and the cursor's move over n bytes.  Bytes
  // past the cursor are overwritten by what follows, or cut.
  method Append(buf: array<byte>, at: nat, src: seq<byte>, n: nat) returns (next: nat)
    requires at + n <= buf.Length
    requires forall k :: at <= k < buf.Length ==> buf[k] == 0
    modifies buf
    ensures next == at + n
    ensures buf[..next] == old(buf[..at]) + Field(src, n)
    ensures |src| <= n ==> forall k :: next <= k < buf.Length ==> buf[k] == 0
  {
    var m := if |src| < buf.Length - at then |src| else buf.Length - at;
    forall k | 0 <= k < m {
      buf[at + k] := src[k];
    }
    next := at + n;
    assert forall k :: 0 <= k < n ==> buf[..next][at + k] == Field(src, n)[k];
  }

  method NewFromHash(s: seq<byte>) returns (r: Result<Hashed>)
    ensures match Parse(s)
            case Err(e) => r == Err(e)
            case Ok(p) => r.Ok? && fresh(r.value) && r.value.View() == p
  {
    if |s| < MIN_HASH_SIZE {
      return Err(HashTooShort);
    }
    var p := new Hashed();
    var version := p.DecodeVersion(s);
    if version.Err? {
      return Err(version.error);
    }
    var rest := s[version.value..];
    var cost := p.DecodeCost(rest);
    if cost.Err? {
      return Err(cost.error);
    }
    rest := rest[cost.value..];
    p.salt := rest[..SALT_SIZE];
    p.hash := rest[SALT_SIZE..];
    r := Ok(p);
  }

  // The fixed salt is the encoding of 16 letters a; it is a parameter here.
  method NewFromPassword(cipher: Cipher, salt: seq<byte>, password: seq<byte>, cost: int)
    returns (r: Result<Hashed>)
    requires |salt| == SALT_SIZE
    ensures match Generated(cipher, salt, password, cost)
            case Err(e) => r == Err(e)
            case Ok(p) => r.Ok? && fresh(r.value) && r.value.View() == p
  {
    var cost := if cost < MIN_COST then DEFAULT_COST else cost;
    var p := new Hashed();
    p.major := MAJOR;
    p.minor := MINOR;
    var bad := CheckCost(cost);
    if bad.Some? {
      return Err(bad.value);
    }
    p.cost := cost;
    p.salt := salt;
    var hash := cipher(password, p.cost, p.salt);
    if hash.None? {
      return Err(CipherFailed);
    }
    p.hash := hash.value;
    r := Ok(p);
  }

  function Generated(cipher: Cipher, salt: seq<byte>, password: seq<byte>, cost: int)
    : (r: Result<Record>)
    requires |salt| == SALT_SIZE
    ensures r.Ok? ==> WellFormed(r.value)
  {
    var c := if cost < MIN_COST then DEFAULT_COST else cost;
    if c > MAX_COST then Err(InvalidCost(c))
    else
      match cipher(password, c, salt)
      case None => Err(CipherFailed)
      case Some(hash) => Ok(Record(hash, salt, c, MAJOR, MINOR))
  }

  method GenerateFromPassword(cipher: Cipher, salt: seq<byte>, password: seq<byte>, cost: int)
    returns (r: Result<seq<byte>>)
    requires |salt| == SALT_SIZE
    ensures match Generated(cipher, salt, password, cost)
            case Err(e) => r == Err(e)
            case Ok(p) => r == Ok(Layout(p))
  {
    var p := NewFromPassword(cipher, salt, password, cost);
    if p.Err? {
      return Err(p.error);
    }
    var printed := p.value.Hash();
    r := Ok(printed);
  }

  // None is success.
  method CompareHashAndPassword(cipher: Cipher, s: seq<byte>, password: seq<byte>)
    returns (error: Option<Error>)
    ensures error == Verdict(cipher, s, password)
  {
    var parsed := NewFromHash(s);
    if parsed.Err? {
      return Some(parsed.error);
    }
    var p := parsed.value;
    var otherHash := cipher(password, p.cost, p.salt);
    if otherHash.None? {
      return Some(CipherFailed);
    }
    var otherP := new Hashed();
    otherP.hash, otherP.salt, otherP.cost := otherHash.value, p.salt, p.cost;
    otherP.major, otherP.minor := p.major, p.minor;
    var mine := p.Hash();
    var other := otherP.Hash();
    LayoutHash(p.View(), otherHash.value);
    error := if mine == other then None else Some(Mismatched);
  }

  /** When a hash is accepted for a password: it parses, and the first 31 bytes after its salt,
      zero-filled when there are fewer, are those of the password's digest under its cost and
      salt.  Bytes past them do not matter. */
  function Verdict(cipher: Cipher, s: seq<byte>, password: seq<byte>): Option<Error> {
    match Parse(s)
    case Err(e) => Some(e)
    case Ok(p) =>
      match cipher(password, p.cost, p.salt)
      case None => Some(CipherFailed)
      case Some(digest) =>
        if Field(p.hash, HASH_SIZE) == Field(digest, HASH_SIZE) then None else Some(Mismatched)
  }

  // Printed forms that differ in the hash alone are equal just when its 31 bytes are.
  lemma LayoutHash(p: Record, hash: seq<byte>)
    requires WellFormed(p)
    ensures Layout(p) == Layout(p.(hash := hash))
       <==> Field(p.hash, HASH_SIZE) == Field(hash, HASH_SIZE)
  {
    var front := Version(p.major, p.minor) + Digits(p.cost) + [DOLLAR] + p.salt;
    assert Layout(p)[|front|..] == Field(p.hash, HASH_SIZE);
    assert Layout(p.(hash := hash))[|front|..] == Field(hash, HASH_SIZE);
  }

  // Where the parts of a printed form are.
  lemma LayoutParts(p: Record)
    requires WellFormed(p)
    ensures var n := |Version(p.major, p.minor)|;
            && |Layout(p)| == n + 3 + SALT_SIZE + HASH_SIZE
            && Layout(p)[..n] == Version(p.major, p.minor)
            && Layout(p)[n..][0..2] == Digits(p.cost)
            && Layout(p)[n + 2] == DOLLAR
            && Layout(p)[n + 3..][..SALT_SIZE] == p.salt
            && Layout(p)[n + 3..][SALT_SIZE..] == Field(p.hash, HASH_SIZE)
  {
  }

  lemma AtoiDigits(cost: int)
    requires 0 <= cost < 100
    ensures Atoi(Digits(cost)[0], Digits(cost)[1]) == Some(cost)
  {
  }

  // Parsing a printed form recovers everything but the hash's length.
  lemma ParsePrinted(p: Record)
    requires WellFormed(p) && p.minor != DOLLAR && p.major <= MAJOR
    ensures Parse(Layout(p)) == Ok(p.(hash := Field(p.hash, HASH_SIZE)))
  {
    LayoutParts(p);
    AtoiDigits(p.cost);
    var s, n := Layout(p), |Version(p.major, p.minor)|;
    assert s[0] == s[..n][0] && s[1] == s[..n][1] && s[2] == s[..n][2];
    assert s[n..][0] == s[n..][0..2][0] && s[n..][1] == s[n..][0..2][1];
  }

  /** The parser undoes the printer exactly when the minor version is not a dollar sign, the major
      version is not too new and the hash has 31 bytes; with or without a minor version. */
  lemma PrintThenParse(p: Record)
    requires WellFormed(p)
    ensures Parse(Layout(p)) == Ok(p)
       <==> p.minor != DOLLAR && p.major <= MAJOR && |p.hash| == HASH_SIZE
  {
    LayoutParts(p);
    var s, n := Layout(p), |Version(p.major, p.minor)|;
    assert s[0] == s[..n][0] && s[1] == s[..n][1] && s[2] == s[..n][2];
    if p.minor != DOLLAR && p.major <= MAJOR {
      ParsePrinted(p);
      assert |p.hash| == HASH_SIZE ==> Field(p.hash, HASH_SIZE) == p.hash;
      assert |p.hash| != HASH_SIZE ==> |Field(p.hash, HASH_SIZE)| != |p.hash|;
    } else if p.major <= MAJOR {
      assert s[3..][0] == s[..n][3] == DOLLAR;
    }
  }

  // A text as the printer writes it.
  predicate Canonical(s: seq<byte>)
    requires |s| >= MIN_HASH_SIZE
  {
    var m := if s[2] == DOLLAR then 0 else 1;
    && |s| == MIN_HASH_SIZE + m
    && s[2] != 0
    && s[2 + m] == DOLLAR && s[5 + m] == DOLLAR
    && s[3 + m] != PLUS
  }

  /** The printer undoes the parser exactly on the canonical texts: the parser also takes a signed
      cost, any separator after the version and the cost, and a hash of another length. */
  lemma ParseThenPrint(s: seq<byte>)
    requires Parse(s).Ok?
    ensures Layout(Parse(s).value) == s <==> Canonical(s)
  {
  }

  /** Every kind of text that is not canonical parses.  In the printed form of any record that the
      parser gives back: any byte in place of the separator after the cost; any byte in place of the
      one after a minor version; a plus sign in place of the cost's leading zero; and any bytes
      behind the hash. */
  lemma OtherTextsParse(p: Record, b: byte, t: seq<byte>)
    requires WellFormed(p) && p.minor != DOLLAR && p.major <= MAJOR && |p.hash| == HASH_SIZE
    ensures var (s, n) := (Layout(p), |Version(p.major, p.minor)|);
            && n + 2 < |s|
            && Parse(s[n + 2 := b]) == Ok(p)
            && (p.minor != 0 ==> Parse(s[3 := b]) == Ok(p))
            && (p.cost < 10 ==> Parse(s[n := PLUS]) == Ok(p))
            && Parse(s + t) == Ok(p.(hash := p.hash + t))
            && (b != DOLLAR ==> !Canonical(s[n + 2 := b]) && (p.minor != 0 ==> !Canonical(s[3 := b])))
            && (p.cost < 10 ==> !Canonical(s[n := PLUS]))
            && (t != [] ==> !Canonical(s + t))
  {
    LayoutParts(p);
    var s, n := Layout(p), |Version(p.major, p.minor)|;
    assert s[0] == s[..n][0] && s[1] == s[..n][1] && s[2] == s[..n][2];
    assert s[n] == s[n..][0..2][0] && s[n + 1] == s[n..][0..2][1];
    assert Field(p.hash, HASH_SIZE) == p.hash;
    SameTail(s, s[n + 2 := b], n);
    SameTail(s, s[n := PLUS], n);
    AtoiDigits(p.cost);
    if p.minor != 0 {
      SameTail(s, s[3 := b], n);
    }
    assert (s + t)[n + 3..] == s[n + 3..] + t;
    assert (s + t)[n + 3..][..SALT_SIZE] == p.salt && (s + t)[n + 3..][SALT_SIZE..] == p.hash + t;
  }

  lemma SameTail(s: seq<byte>, t: seq<byte>, n: nat)
    requires |s| == |t| && n + 3 <= |s| && forall i :: n + 3 <= i < |s| ==> s[i] == t[i]
    ensures t[n + 3..] == s[n + 3..]
  {
  }

  /** A generated hash is accepted for a password exactly when the password has the same digest;
      so it is always accepted for its own, and its cost reads back. */
  lemma GeneratedIsAccepted(cipher: Cipher, salt: seq<byte>, password: seq<byte>, cost: int,
                            other: seq<byte>)
    requires |salt| == SALT_SIZE && Generated(cipher, salt, password, cost).Ok?
    ensures var p := Generated(cipher, salt, password, cost).value;
            var s := Layout(p);
            && |s| == 60
            && Verdict(cipher, s, password) == None
            && (Verdict(cipher, s, other) == None <==>
                  var digest := cipher(other, p.cost, salt);
                  digest.Some? && Field(digest.value, HASH_SIZE) == Field(p.hash, HASH_SIZE))
            && Parse(s).Ok? && Parse(s).value.cost == if cost < MIN_COST then DEFAULT_COST else cost
  {
    var p := Generated(cipher, salt, password, cost).value;
    LayoutParts(p);
    ParsePrinted(p);
  }

  // ----- byte by byte -----

  /** What a generated text is, byte by byte: a dollar sign, the letters 2a, a dollar sign, the cost in two
      digits, which is 10 when less than 1 was asked for, a dollar sign, the salt, and 31 bytes of
      digest.  It is refused exactly for a cost above 31 or when the cipher fails. */
  lemma GeneratedText(cipher: Cipher, salt: seq<byte>, password: seq<byte>, cost: int)
    requires |salt| == 22
    ensures var c := if cost < 1 then 10 else cost;
            match Generated(cipher, salt, password, cost)
            case Err(e) =>
              if c > 31 then e == InvalidCost(c)
              else e == CipherFailed && cipher(password, c, salt) == None
            case Ok(p) =>
              && 1 <= c <= 31 && cipher(password, c, salt) == Some(p.hash)
              && |Layout(p)| == 60
              && Layout(p)[..7] == [36, 50, 97, 36, 48 + c / 10, 48 + c % 10, 36]
              && Layout(p)[7..29] == salt
              && (forall i :: 0 <= i < 31 ==>
                    Layout(p)[29 + i] == if i < |p.hash| then p.hash[i] else 0)
  {
    var r := Generated(cipher, salt, password, cost);
    if r.Ok? {
      LayoutParts(r.value);
      var s := Layout(r.value);
      assert s[29..] == s[7..][22..];
      assert forall i :: 0 <= i < 31 ==> s[29..][i] == s[29 + i];
    }
  }

  predicate IsDigit(b: int) {
    48 <= b <= 57
  }

  /** Which texts the parser refuses, and why, in its order: fewer than 59 bytes; another first byte
      than a dollar sign; a major version past the digit 2; two bytes of cost that are not digits, the
      first of which may be a sign; and a cost outside 1 to 31. */
  lemma ParseRefuses(s: seq<byte>)
    ensures Parse(s) == Err(HashTooShort) <==> |s| < 59
    ensures |s| >= 59 && s[0] != 36 ==> Parse(s) == Err(InvalidHashPrefix(s[0]))
    ensures |s| >= 59 && s[0] == 36 && s[1] > 50 ==> Parse(s) == Err(HashVersionTooNew(s[1]))
    ensures |s| >= 59 && s[0] == 36 && s[1] <= 50 ==>
              var n := if s[2] != 36 then 4 else 3;
              var x: int := s[n];
              var y: int := s[n + 1];
              var cost := if x == 43 then y - 48 else if x == 45 then 48 - y
                          else 10 * (x - 48) + (y - 48);
              if !IsDigit(y) || !(IsDigit(x) || x == 43 || x == 45) then Parse(s) == Err(NotANumber)
              else if cost < 1 || cost > 31 then Parse(s) == Err(InvalidCost(cost))
              else
                Parse(s) == Ok(Record(s[n + 25..], s[n + 3..n + 25], cost, s[1], if n == 4 then s[2] else 0))
  {
    if |s| >= 59 && s[0] == 36 && s[1] <= 50 {
      var n := if s[2] != 36 then 4 else 3;
      assert s[n..][0] == s[n] && s[n..][1] == s[n + 1];
      assert s[n + 3..][..22] == s[n + 3..n + 25] && s[n + 3..][22..] == s[n + 25..];
    }
  }
}
