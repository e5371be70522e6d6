/**
 * `ProtobufMessageBuilder.generate_protobuf_safe_field_name` (protobuf_schema_builder/builder.py):
 * a pure transform from an arbitrary field name to a protobuf identifier.
 *
 * The hash suffix is the first 8 hexadecimal digits of the SHA-1 digest of the UTF-8 encoded
 * original name. SHA-1 is not modelled: it is the parameter `hex8`, about which nothing is
 * known except that each of its results is 8 lower-case hexadecimal digits.
 */
module FieldNames {

  predicate IsAsciiDigit(c: char) { '0' <= c <= '9' }

  predicate IsAsciiLetter(c: char) { 'a' <= c <= 'z' || 'A' <= c <= 'Z' }

  /** The characters the pattern `[a-zA-Z0-9]` matches. */
  predicate IsAsciiAlnum(c: char) { IsAsciiLetter(c) || IsAsciiDigit(c) }

  predicate IsIdentChar(c: char) { IsAsciiAlnum(c) || c == '_' }

  /** `^[A-Za-z_][A-Za-z0-9_]*$`: a legal protobuf field identifier. */
  predicate IsProtoIdentifier(s: string) {
    && |s| > 0
    && (IsAsciiLetter(s[0]) || s[0] == '_')
    && forall i :: 0 <= i < |s| ==> IsIdentChar(s[i])
  }

  predicate IsHexDigit(c: char) { '0' <= c <= '9' || 'a' <= c <= 'f' }

  predicate IsHex8(s: string) {
    |s| == 8 && forall i :: 0 <= i < |s| ==> IsHexDigit(s[i])
  }

  /** `hexdigest()[:8]`: eight lower-case hexadecimal digits. */
  type Hex8 = s: string | IsHex8(s) witness "00000000"

  /** The character `re.sub(r"[^a-zA-Z0-9]", "_", ...)` puts in place of `c`. */
  function MaskChar(c: char): char {
    if IsAsciiAlnum(c) then c else '_'
  }

  /** `re.sub(r"[^a-zA-Z0-9]", "_", name)`: a character-by-character replacement. */
  function Mask(name: string): (masked: string)
    ensures |masked| == |name|
    ensures forall i :: 0 <= i < |name| ==> masked[i] == MaskChar(name[i])
    ensures forall i :: 0 <= i < |masked| ==> IsIdentChar(masked[i])
  {
    if name == [] then [] else [MaskChar(name[0])] + Mask(name[1..])
  }

  /** `generate_protobuf_safe_field_name(field_name)`. */
  function SafeFieldName(hex8: string -> Hex8, fieldName: string): (r: string)
    ensures IsProtoIdentifier(r)
    ensures !IsAsciiDigit(r[0])
  {
    var masked := Mask(fieldName);
    var suffix := hex8(fieldName);
    assert forall i :: 0 <= i < |suffix| ==> IsIdentChar(suffix[i]) by {
      forall i | 0 <= i < |suffix| ensures IsIdentChar(suffix[i]) { assert IsHexDigit(suffix[i]); }
    }
    if masked == [] then
      "field_" + suffix
    else
      var prefixed := if IsAsciiDigit(masked[0]) then "f_" + masked else masked;
      prefixed + "_" + suffix
  }

  /** Length of the prefix ("f_" or nothing) put before a non-empty masked name. */
  function PrefixLength(fieldName: string): nat {
    if fieldName != [] && IsAsciiDigit(fieldName[0]) then 2 else 0
  }

  /**
   * The shape of a safe name, stated over the original name: the empty name becomes
   * "field_" and the digest; otherwise a leading digit earns "f_", every character is kept
   * or replaced by '_' in place, and "_" and the digest follow.
   */
  lemma {:induction false} SafeFieldNameShape(hex8: string -> Hex8, fieldName: string)
    ensures var r := SafeFieldName(hex8, fieldName);
      && (fieldName == [] ==> r == "field_" + hex8(fieldName))
      && (fieldName != [] ==>
            && |r| == PrefixLength(fieldName) + |fieldName| + 9
            && (PrefixLength(fieldName) == 2 ==> r[..2] == "f_")
            && (forall i :: 0 <= i < |fieldName| ==> r[PrefixLength(fieldName) + i] == MaskChar(fieldName[i]))
            && r[|r| - 9] == '_')
  {
    var masked := Mask(fieldName);
    if fieldName != [] {
      assert IsAsciiDigit(masked[0]) <==> IsAsciiDigit(fieldName[0]);
    }
  }

  /** The last eight characters are always the digest of the ORIGINAL (unmasked) name. */
  lemma {:induction false} SafeFieldNameSuffix(hex8: string -> Hex8, fieldName: string)
    ensures var r := SafeFieldName(hex8, fieldName);
      |r| >= 9 && r[|r| - 8..] == hex8(fieldName)
  {
    var r := SafeFieldName(hex8, fieldName);
    var masked := Mask(fieldName);
    var suffix := hex8(fieldName);
    if masked == [] {
      assert r == "field_" + suffix;
    } else {
      var prefixed := if IsAsciiDigit(masked[0]) then "f_" + masked else masked;
      assert r == (prefixed + "_") + suffix;
    }
  }

  /** Two names with different digests never collide. */
  lemma {:induction false} DistinctDigestsDistinctNames(hex8: string -> Hex8, a: string, b: string)
    requires hex8(a) != hex8(b)
    ensures SafeFieldName(hex8, a) != SafeFieldName(hex8, b)
  {
    SafeFieldNameSuffix(hex8, a);
    SafeFieldNameSuffix(hex8, b);
  }
}
