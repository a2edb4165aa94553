/** The flash command's parameters: hexadecimal integers, `<path>,<address>` binfile
    arguments, and the ordered multipart fields of the flash request. */
module Flash {
  import opened Wrappers
  import opened Text

  const HexSuffixText := " is not a valid hex integer"
  const BinfileSyntaxText := ". Syntax: --binfile <filename>,<address>"

  /** Why a parameter was refused: `self.fail` with a message, or a path that does not exist. */
  datatype ParamError = Fail(message: string) | PathMissing(path: string)

  predicate IsHexDigit(c: char)
  {
    '0' <= c <= '9' || 'a' <= c <= 'f' || 'A' <= c <= 'F'
  }

  function DigitValue(c: char): (v: nat)
    requires IsHexDigit(c)
    ensures v < 16
  {
    if '0' <= c <= '9' then c as nat - '0' as nat
    else if 'a' <= c <= 'f' then c as nat - 'a' as nat + 10
    else c as nat - 'A' as nat + 10
  }

  /** The lower-case digit of a value below 16. */
  function HexChar(v: nat): (c: char)
    requires v < 16
    ensures IsHexDigit(c) && DigitValue(c) == v
  {
    if v < 10 then ('0' as nat + v) as char else ('a' as nat + v - 10) as char
  }

  predicate AllHex(s: string)
  {
    forall k :: 0 <= k < |s| ==> IsHexDigit(s[k])
  }

  /** The value of a string of hex digits, most significant first. */
  function HexValue(s: string): nat
    requires AllHex(s)
  {
    if s == [] then 0 else HexValue(s[..|s| - 1]) * 16 + DigitValue(s[|s| - 1])
  }

  /** `n` in lower-case hex digits, without leading zeros. */
  function ToHex(n: nat): (r: string)
    ensures r != [] && AllHex(r)
  {
    if n < 16 then [HexChar(n)] else ToHex(n / 16) + [HexChar(n % 16)]
  }

  /** The digits after an optional `0x` or `0X` prefix. */
  function HexDigits(value: string): string
  {
    if StartsWith(value, "0x") || StartsWith(value, "0X") then value[2..] else value
  }

  /** `int(value, 16)`, for an optional `0x`/`0X` prefix followed by at least one hex digit;
      anything else fails with the hex-integer message. */
  function ParseHex(value: string): (r: Result<nat, ParamError>)
    ensures r.Err? <==> HexDigits(value) == [] || !AllHex(HexDigits(value))
    ensures r.Err? ==> r.error == Fail(value + HexSuffixText)
    ensures r.Ok? ==> AllHex(HexDigits(value)) && r.value == HexValue(HexDigits(value))
  {
    var digits := HexDigits(value);
    if digits == [] || !AllHex(digits) then Err(Fail(value + HexSuffixText)) else Ok(HexValue(digits))
  }

  /** Reading the digits of a number gives the number back. */
  lemma {:induction false} HexRoundTrip(n: nat)
    ensures HexValue(ToHex(n)) == n
    decreases n
  {
    if n >= 16 {
      HexRoundTrip(n / 16);
      var s := ToHex(n);
      assert s[..|s| - 1] == ToHex(n / 16);
    }
  }

  /** Any non-empty string of hex digits, with or without a `0x` prefix, parses to its value. */
  lemma ParseHexDigits(t: string)
    requires t != [] && AllHex(t)
    ensures ParseHex(t) == Ok(HexValue(t))
    ensures ParseHex("0x" + t) == Ok(HexValue(t))
  {
    assert !StartsWith(t, "0x") && !StartsWith(t, "0X") by {
      if |t| >= 2 {
        assert IsHexDigit(t[1]);
      }
    }
    assert ("0x" + t)[2..] == t;
  }

  /** Every number parses back from its digits, with or without a `0x` prefix. */
  lemma ParseHexRoundTrip(n: nat)
    ensures ParseHex(ToHex(n)) == Ok(n)
    ensures ParseHex("0x" + ToHex(n)) == Ok(n)
  {
    HexRoundTrip(n);
    ParseHexDigits(ToHex(n));
  }

  /** `k` zero digits. */
  function Zeros(k: nat): (r: string)
    ensures |r| == k && AllHex(r)
  {
    seq(k, i => '0')
  }

  /** Leading zero digits do not change the value. */
  lemma {:induction false} HexValueLeadingZeros(k: nat, s: string)
    requires AllHex(s)
    ensures HexValue(Zeros(k) + s) == HexValue(s)
    decreases |s|, k
  {
    if s == [] {
      assert Zeros(k) + s == Zeros(k);
      if k > 0 {
        assert Zeros(k)[..k - 1] == Zeros(k - 1);
        HexValueLeadingZeros(k - 1, s);
        assert Zeros(k - 1) + s == Zeros(k - 1);
      }
    } else {
      var t := Zeros(k) + s;
      assert t[..|t| - 1] == Zeros(k) + s[..|s| - 1];
      HexValueLeadingZeros(k, s[..|s| - 1]);
    }
  }

  /** A zero-padded number, with or without a `0x` prefix, parses to the number. */
  lemma ParseHexPadded(n: nat, k: nat)
    ensures ParseHex(Zeros(k) + ToHex(n)) == Ok(n)
    ensures ParseHex("0x" + (Zeros(k) + ToHex(n))) == Ok(n)
  {
    var s := Zeros(k) + ToHex(n);
    HexRoundTrip(n);
    HexValueLeadingZeros(k, ToHex(n));
    ParseHexDigits(s);
  }

  /** A binfile argument: the file and its load address. */
  datatype Binfile = Binfile(path: string, address: nat)

  /** Parses `<path>,<address>`, splitting at the last comma so that the path may hold commas;
      when `mustExist` is set the path must name an existing file. */
  function ConvertBinfile(value: string, mustExist: bool, isFile: string -> bool): (r: Result<Binfile, ParamError>)
    ensures ',' !in value ==> r == Err(Fail(value + BinfileSyntaxText))
    ensures r.Ok? ==> exists hex :: value == r.value.path + "," + hex && ',' !in hex &&
                                    ParseHex(hex) == Ok(r.value.address)
    ensures r.Ok? && mustExist ==> isFile(r.value.path)
  {
    var parts := RSplitOnce(value, ',');
    if parts.None? then Err(Fail(value + BinfileSyntaxText))
    else
      var filename := parts.value.0;
      var address := parts.value.1;
      if mustExist && !isFile(filename) then Err(PathMissing(filename))
      else
        var n := ParseHex(address);
        if n.Err? then Err(n.error)
        else
          assert value == filename + "," + address;
          Ok(Binfile(filename, n.value))
  }

  /** Any path, commas included, comes back with its address: a value such as `a,b,10` is
      file `a,b` at address 0x10. */
  lemma BinfileRoundTrip(path: string, address: nat, isFile: string -> bool)
    ensures ConvertBinfile(path + "," + ToHex(address), false, isFile) == Ok(Binfile(path, address))
  {
    var hex := ToHex(address);
    assert forall k :: 0 <= k < |hex| ==> hex[k] != ',';
    assert path + "," + hex == path + [','] + hex;
    RSplitOnceAt(path, hex, ',');
    ParseHexRoundTrip(address);
  }

  /** A field of the multipart flash request: an opened file, an address, or a flag. */
  datatype FormValue = FileOf(path: string) | Address(n: nat) | Flag(b: bool)

  /** The fields of the flash request, built in place: every hexfile in order, then every
      binfile's file, then every binfile's address in the same order, then the three flags. */
  method FlashFields(hexfiles: seq<string>, binfiles: seq<Binfile>, preverify: bool, verify: bool, force: bool)
    returns (files: seq<(string, FormValue)>)
    ensures |files| == |hexfiles| + 2 * |binfiles| + 3
    ensures forall i :: 0 <= i < |hexfiles| ==> files[i] == ("hexfile", FileOf(hexfiles[i]))
    ensures forall j :: 0 <= j < |binfiles| ==> files[|hexfiles| + j] == ("binfile", FileOf(binfiles[j].path))
    ensures forall j :: 0 <= j < |binfiles| ==>
              files[|hexfiles| + |binfiles| + j] == ("binfile_address", Address(binfiles[j].address))
    ensures files[|files| - 3..] == [("preverify", Flag(preverify)), ("verify", Flag(verify)), ("force", Flag(force))]
  {
    files := [];
    var i := 0;
    while i < |hexfiles|
      invariant 0 <= i <= |hexfiles| && |files| == i
      invariant forall k :: 0 <= k < i ==> files[k] == ("hexfile", FileOf(hexfiles[k]))
    {
      files := files + [("hexfile", FileOf(hexfiles[i]))];
      i := i + 1;
    }
    var j := 0;
    while j < |binfiles|
      invariant 0 <= j <= |binfiles| && |files| == |hexfiles| + j
      invariant forall k :: 0 <= k < |hexfiles| ==> files[k] == ("hexfile", FileOf(hexfiles[k]))
      invariant forall k :: 0 <= k < j ==> files[|hexfiles| + k] == ("binfile", FileOf(binfiles[k].path))
    {
      files := files + [("binfile", FileOf(binfiles[j].path))];
      j := j + 1;
    }
    j := 0;
    while j < |binfiles|
      invariant 0 <= j <= |binfiles| && |files| == |hexfiles| + |binfiles| + j
      invariant forall k :: 0 <= k < |hexfiles| ==> files[k] == ("hexfile", FileOf(hexfiles[k]))
      invariant forall k :: 0 <= k < |binfiles| ==> files[|hexfiles| + k] == ("binfile", FileOf(binfiles[k].path))
      invariant forall k :: 0 <= k < j ==>
                  files[|hexfiles| + |binfiles| + k] == ("binfile_address", Address(binfiles[k].address))
    {
      files := files + [("binfile_address", Address(binfiles[j].address))];
      j := j + 1;
    }
    files := files + [("preverify", Flag(preverify))];
    files := files + [("verify", Flag(verify))];
    files := files + [("force", Flag(force))];
  }
}
