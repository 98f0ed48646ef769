/** The Umrah package detail page: a fixed table of four packages and the lookup by route parameter. */
module UmrahPackage {
  import opened Wrappers
  import opened JsString
  import opened JsNumber

  datatype Package = Package(
    title: string,
    date: string,
    duration: string,
    price: string,
    rating: int,
    button: string,
    images: seq<string>)

  /** `packageData`; each image is named by the asset file it is imported from. */
  const Packages: seq<Package> := [
    Package("Ramadan / Krokusvakantie", "27/02 - 08/03", "10 DAGEN", "2299,-", 5, "Meer Info",
            ["fotorecht1.jpg", "fotorecht2.jpg"]),
    Package("November Umrah", "21/11 - 28/11", "7 DAGEN", "1399,-", 5, "Meer Info",
            ["fotorecht3.jpg", "fotorecht4.jpg"]),
    Package("December Umrah", "03/12 - 12/12", "9 DAGEN", "1499,-", 5, "Meer Info",
            ["fotorecht5.jpg", "fotorecht6.jpg"]),
    Package("Wintervakantie", "27/12 - 06/01", "11 DAGEN", "2399,-", 5, "Meer Info",
            ["fotorecht1.jpg", "fotorecht2.jpg"])
  ]

  /**
   * `packageId && packageData[parseInt(packageId)]`: `None` is the
   * invalid-id view. A missing or empty id is falsy; otherwise the id is
   * read by `parseInt`, and `NaN`, a negative number or one past the table
   * indexes nothing (`-0` indexes entry 0).
   */
  function Lookup(packageId: Option<string>): Option<Package> {
    if !Truthy(packageId) then None
    else
      match ParseInt(packageId.value)
      case None => None
      case Some(n) => if 0 <= n < |Packages| then Some(Packages[n]) else None
  }

  /** An undefined or empty id gives the invalid view. */
  lemma EmptyIdInvalid()
    ensures Lookup(None) == None
    ensures Lookup(Some("")) == None
  {
  }

  /**
   * An id made of an integer followed by anything that does not continue
   * it selects exactly that entry when it is 0 to 3 and nothing otherwise,
   * negatives included.
   */
  lemma LeadingIntegerSelects(n: int, rest: string)
    requires rest == [] || !IsDecimalDigit(rest[0])
    requires n == 0 && rest != [] ==> rest[0] != 'x' && rest[0] != 'X'
    ensures Lookup(Some(NumberToString(n) + rest)) == if 0 <= n < |Packages| then Some(Packages[n]) else None
  {
    ParseIntLeadingInteger(n, rest);
    DigitsShape(if n < 0 then -n else n);
    assert NumberToString(n) + rest != "";
  }

  /** The decimal ids 0 to 3 select those entries, and every other integer id selects nothing. */
  lemma DecimalIdSelects(n: int)
    ensures Lookup(Some(NumberToString(n))) == if 0 <= n < 4 then Some(Packages[n]) else None
  {
    LeadingIntegerSelects(n, []);
    assert NumberToString(n) + [] == NumberToString(n);
  }

  /** Whatever the id, what is found is an entry of the table. */
  lemma FoundIsInTable(packageId: Option<string>)
    ensures Lookup(packageId).Some? ==> Lookup(packageId).value in Packages
    ensures Lookup(packageId).Some? ==> Truthy(packageId) && ParseInt(packageId.value).Some?
  {
  }

  /** An id with no leading digits is `NaN` and selects nothing. */
  lemma NonNumericInvalid()
    ensures Lookup(Some("abc")) == None
  {
    assert TrimStart("abc") == "abc";
    assert DigitPrefix("abc", 10) == [];
  }

  /** Only the leading digits count: "1x" selects entry 1, and "4" and "-1" select nothing. */
  lemma DigitPrefixExamples()
    ensures Lookup(Some("1x")) == Some(Packages[1])
    ensures Lookup(Some("4")) == None
    ensures Lookup(Some("-1")) == None
  {
    LeadingIntegerSelects(1, "x");
    assert NumberToString(1) + "x" == "1x";
    DecimalIdSelects(4);
    assert NumberToString(4) == "4";
    DecimalIdSelects(-1);
    assert NumberToString(-1) == "-1";
  }

  /** `parseInt("-0")` is `-0`, which indexes entry 0. */
  lemma MinusZeroSelectsFirst()
    ensures Lookup(Some("-0")) == Some(Packages[0])
  {
    assert TrimStart("-0") == "-0";
    assert DigitPrefix("0", 10) == "0";
    assert ValueOf("0", 10) == 0;
  }

  /** `parseInt` also skips leading whitespace and reads a `0x` prefix as hexadecimal: " 2" selects entry 2 and "0x3" entry 3. */
  lemma WhitespaceAndHexIds()
    ensures Lookup(Some(" 2")) == Some(Packages[2])
    ensures Lookup(Some("0x3")) == Some(Packages[3])
  {
    assert IsWhitespace(' ');
    assert TrimStart(" 2") == "2";
    assert DigitPrefix("2", 10) == "2";
    assert ValueOf("2", 10) == 2;
    assert TrimStart("0x3") == "0x3";
    assert "0x3"[2..] == "3";
    assert DigitPrefix("3", 16) == "3";
    assert ValueOf("3", 16) == 3;
  }
}
