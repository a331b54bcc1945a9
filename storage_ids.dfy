/** The string form of datastore integer ids used by storage/utils.go
    (and, as an identical copy, storage/data.go): `kind + "://" + base 36`,
    with `strconv.FormatInt`/`strconv.ParseInt` written out. */
module StorageIds {
  import opened Wrappers

  /** Go's `int64`. */
  type int64 = x: int | -0x8000_0000_0000_0000 <= x < 0x8000_0000_0000_0000

  const Separator: string := "://"

  /** The lower-case base-36 digit of `d`. */
  function Digit(d: nat): (c: char)
    requires d < 36
    ensures DigitValue(c) == Some(d)
  {
    if d < 10 then (48 + d) as char else (97 + d - 10) as char
  }

  /** The value of a base-36 digit; `ParseInt` accepts either case. */
  function DigitValue(c: char): (r: Option<nat>)
    ensures r.Some? ==> r.value < 36
  {
    if '0' <= c <= '9' then Some(c as int - 48)
    else if 'a' <= c <= 'z' then Some(c as int - 97 + 10)
    else if 'A' <= c <= 'Z' then Some(c as int - 65 + 10)
    else None
  }

  /** The digits of `n` in base 36, most significant first, without
      leading zeros. */
  function Base36(n: nat): (s: string)
    ensures |s| > 0
    ensures forall k :: 0 <= k < |s| ==> DigitValue(s[k]).Some?
  {
    if n < 36 then [Digit(n)] else Base36(n / 36) + [Digit(n % 36)]
  }

  /** `strconv.FormatInt(n, 36)`. */
  function FormatInt36(n: int64): (s: string)
    ensures |s| > 0
    ensures n < 0 <==> s[0] == '-'
  {
    if n < 0 then "-" + Base36(-(n as int)) else Base36(n)
  }

  /** The value of a non-empty string of base-36 digits. */
  function DigitsValue(s: string): (r: Option<nat>)
    ensures r.Some? <==> |s| > 0 && forall k :: 0 <= k < |s| ==> DigitValue(s[k]).Some?
  {
    if |s| == 0 then None
    else if |s| == 1 then DigitValue(s[0])
    else match (DigitsValue(s[..|s| - 1]), DigitValue(s[|s| - 1]))
      case (Some(high), Some(low)) => Some(high * 36 + low)
      case _ => None
  }

  /** `strconv.ParseInt(s, 36, 64)`: an optional sign, then digits; out of
      the `int64` range is an error. */
  function ParseInt36(s: string): (r: Option<int64>)
    ensures s == [] ==> r == None
  {
    var negative := |s| > 0 && s[0] == '-';
    var digits := if |s| > 0 && (s[0] == '-' || s[0] == '+') then s[1..] else s;
    match DigitsValue(digits)
    case None => None
    case Some(v) =>
      var value: int := if negative then -(v as int) else v;
      if -0x8000_0000_0000_0000 <= value < 0x8000_0000_0000_0000 then Some(value) else None
  }

  lemma {:induction false} DigitsOfBase36(n: nat)
    ensures DigitsValue(Base36(n)) == Some(n)
  {
    if n >= 36 {
      DigitsOfBase36(n / 36);
      var s := Base36(n);
      assert s[..|s| - 1] == Base36(n / 36);
    }
  }

  /** Parsing undoes formatting on the whole `int64` range. */
  lemma ParseFormatInt36(n: int64)
    ensures ParseInt36(FormatInt36(n)) == Some(n)
  {
    DigitsOfBase36(if n < 0 then -(n as int) else n as int);
    if n < 0 {
      assert FormatInt36(n)[1..] == Base36(-(n as int));
    } else {
      assert FormatInt36(n)[0] != '-' && FormatInt36(n)[0] != '+';
    }
  }

  /** `formatId`. */
  function FormatId(kind: string, intId: int64): (s: string)
    ensures s == kind + Separator + FormatInt36(intId)
    ensures s[..|kind|] == kind && s[|kind|..|kind| + 3] == Separator
  {
    kind + Separator + FormatInt36(intId)
  }

  predicate SeparatorAt(s: string, p: nat) {
    p + 3 <= |s| && s[p] == ':' && s[p + 1] == '/' && s[p + 2] == '/'
  }

  ghost predicate ContainsSeparator(s: string) {
    exists p: nat :: SeparatorAt(s, p)
  }

  /** The first occurrence of `"://"` at or after `from`. */
  function FindSeparator(s: string, from: nat): (r: Option<nat>)
    ensures r.Some? ==> from <= r.value && SeparatorAt(s, r.value) &&
                        forall q: nat :: from <= q < r.value ==> !SeparatorAt(s, q)
    ensures r.None? ==> forall q: nat :: from <= q ==> !SeparatorAt(s, q)
    decreases |s| - from
  {
    if from + 3 > |s| then None
    else if SeparatorAt(s, from) then Some(from)
    else FindSeparator(s, from + 1)
  }

  /** The id `unformatId` reads from the text after the separator: its
      `ParseInt` value, or 0 when that fails. */
  function IdOrZero(rest: string): int64 {
    match ParseInt36(rest)
    case Some(id) => id
    case None => 0
  }

  /** `unformatId`: `strings.SplitN(s, "://", 2)` splits at the first
      separator. A numeric part that does not parse gives id 0 and no
      error; without a separator the result is an error. */
  function UnformatId(formattedId: string): (r: Result<(string, int64)>)
    ensures r.Err? <==> !ContainsSeparator(formattedId)
    ensures r.Err? ==> r.message == "Missing valid identifier"
    ensures r.Ok? ==> exists p: nat :: SeparatorAt(formattedId, p) && r.value.0 == formattedId[..p] &&
                                      forall q: nat :: q < p ==> !SeparatorAt(formattedId, q)
    ensures r.Ok? ==> |r.value.0| + 3 <= |formattedId| &&
                      r.value.1 == IdOrZero(formattedId[|r.value.0| + 3..])
  {
    match FindSeparator(formattedId, 0)
    case None => Err("Missing valid identifier")
    case Some(p) =>
      var kind := formattedId[..p];
      match ParseInt36(formattedId[p + 3..])
      case Some(id) => Ok((kind, id))
      case None => Ok((kind, 0))
  }

  /** The separator cannot start inside `kind` when `kind` holds none:
      `"://"` does not overlap itself, so no occurrence straddles the end
      of `kind`. */
  lemma SplitAtKind(kind: string, rest: string)
    requires !ContainsSeparator(kind)
    ensures var s := kind + Separator + rest;
            FindSeparator(s, 0) == Some(|kind|) && s[..|kind|] == kind && s[|kind| + 3..] == rest
  {
    var s := kind + Separator + rest;
    forall q: nat | q < |kind|
      ensures !SeparatorAt(s, q)
    {
      if q + 3 <= |kind| {
        assert !SeparatorAt(kind, q);
        assert s[q] == kind[q] && s[q + 1] == kind[q + 1] && s[q + 2] == kind[q + 2];
      } else if q + 2 == |kind| {
        assert s[q + 2] == ':';
      } else {
        assert s[q + 1] == ':';
      }
    }
    assert SeparatorAt(s, |kind|);
    assert s[..|kind|] == kind && s[|kind| + 3..] == rest;
  }

  /** With a kind that holds no separator, the id is whatever `ParseInt`
      makes of the rest, and an unparsable rest yields id 0 and no error. */
  lemma UnformatKindAndRest(kind: string, rest: string)
    requires !ContainsSeparator(kind)
    ensures UnformatId(kind + Separator + rest) == Ok((kind, IdOrZero(rest)))
    ensures ParseInt36(rest) == None ==> UnformatId(kind + Separator + rest) == Ok((kind, 0))
  {
    SplitAtKind(kind, rest);
  }

  /** The kind used for folder ids. */
  lemma FolderKindHasNoSeparator()
    ensures !ContainsSeparator("folder")
  {
    forall p: nat ensures !SeparatorAt("folder", p) {
      if p + 3 <= 6 {
        assert "folder"[p] != ':';
      }
    }
  }

  /** `unformatId(formatId(kind, n))` gives back `kind` and `n` whenever
      `kind` holds no `"://"`. */
  lemma UnformatFormatId(kind: string, intId: int64)
    requires !ContainsSeparator(kind)
    ensures UnformatId(FormatId(kind, intId)) == Ok((kind, intId))
  {
    SplitAtKind(kind, FormatInt36(intId));
    ParseFormatInt36(intId);
  }
}
