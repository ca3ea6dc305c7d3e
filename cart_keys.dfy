/** The session cart's keys: "<productId>|<color>|<size>" (build_cart_key
    and parse_cart_key). */
module CartKeys {
  import opened Wrappers
  import opened Text

  /** A purchasable stock unit: product id, color and size. */
  type Variant = (int, string, string)

  /** build_cart_key: "<productId>|<color>|<size>". */
  function BuildCartKey(productId: int, color: string, size: string): string
  {
    IntToStr(productId) + "|" + color + "|" + size
  }

  /** Every built key reads back its product id whatever the color and size
      hold, so every key the cart stores can be parsed. */
  lemma BuiltKeyParses(productId: int, color: string, size: string)
    ensures var parsed := ParseCartKey(BuildCartKey(productId, color, size));
      parsed.Some? && parsed.value.0 == productId
  {
    var id := IntToStr(productId);
    var rest := color + ['|'] + size;
    IntToStrAvoids(productId, '|');
    IntToStrParses(productId);
    SplitOnceAt(id, '|', rest);
    assert rest[|color|] == '|';
    assert SplitOnce(rest, '|').Some?;
    assert BuildCartKey(productId, color, size) == id + ['|'] + rest;
  }

  /** With a color free of '|' a built key reads back as exactly
      (productId, color, size); the size may contain '|', since
      parse_cart_key splits only twice. */
  lemma ParseBuildRoundTrip(productId: int, color: string, size: string)
    requires '|' !in color
    ensures ParseCartKey(BuildCartKey(productId, color, size)) == Some((productId, color, size))
  {
    IntToStrAvoids(productId, '|');
    IntToStrParses(productId);
    ParseKeyParts(IntToStr(productId), color, size, productId);
  }

  /** parse_cart_key: split on the first two '|' (split("|", 2)), then int()
      of the first part. None stands for the ValueError it raises. */
  function ParseCartKey(key: string): (v: Option<Variant>)
    ensures '|' !in key ==> v.None?
    ensures v.Some? ==> '|' !in v.value.1
  {
    match SplitOnce(key, '|')
    case None => None
    case Some(first) =>
      match SplitOnce(first.1, '|')
      case None => None
      case Some(second) =>
        assert key == first.0 + ['|'] + (second.0 + ['|'] + second.1);
        match ParseInt(first.0)
        case None => None
        case Some(id) => Some((id, second.0, second.1))
  }

  /** A key with fewer than two '|' raises: split("|", 2) gives fewer than
      three parts. */
  lemma FewBarsDoNotParse(key: string)
    requires multiset(key)['|'] < 2
    ensures ParseCartKey(key).None?
  {
  }

  /** A key whose first part reads as `id` and whose color has no '|' parses
      to its three parts. */
  lemma ParseKeyParts(idText: string, color: string, size: string, id: int)
    requires '|' !in idText && '|' !in color && ParseInt(idText) == Some(id)
    ensures ParseCartKey(idText + "|" + color + "|" + size) == Some((id, color, size))
  {
    var rest := color + ['|'] + size;
    assert idText + "|" + color + "|" + size == idText + ['|'] + rest;
    SplitOnceAt(idText, '|', rest);
    SplitOnceAt(color, '|', size);
  }

  /** A leading zero does not change the number a run of digits denotes. */
  lemma {:induction false} LeadingZero(s: string)
    requires IsDigits(s)
    ensures IsDigits(['0'] + s) && DigitsValue(['0'] + s) == DigitsValue(s)
  {
    var z := ['0'] + s;
    if |s| == 1 {
      assert z[..1] == ['0'];
      assert s[..0] == [];
    } else {
      assert z[..|z| - 1] == ['0'] + s[..|s| - 1];
      LeadingZero(s[..|s| - 1]);
    }
  }

  lemma PrefixKey(z: char, id: string, color: string, size: string)
    ensures [z] + (id + "|" + color + "|" + size) == ([z] + id) + "|" + color + "|" + size
  {
  }

  /** Two different keys can name the same variant: int() accepts leading
      zeros, so "05|Red|M" and "5|Red|M" both read as product 5. */
  lemma DistinctKeysSameVariant(productId: nat, color: string, size: string)
    requires '|' !in color
    ensures ['0'] + BuildCartKey(productId, color, size) != BuildCartKey(productId, color, size)
    ensures ParseCartKey(['0'] + BuildCartKey(productId, color, size)) == Some((productId, color, size))
    ensures ParseCartKey(BuildCartKey(productId, color, size)) == Some((productId, color, size))
  {
    var id := NatToStr(productId);
    var key := BuildCartKey(productId, color, size);
    assert |['0'] + key| != |key|;
    LeadingZero(id);
    NatToStrValue(productId);
    ParseDigits(['0'] + id);
    IntToStrAvoids(productId, '|');
    assert '|' !in ['0'] + id;
    ParseKeyParts(['0'] + id, color, size, productId);
    assert IntToStr(productId) == id;
    PrefixKey('0', id, color, size);
    ParseBuildRoundTrip(productId, color, size);
  }
}
