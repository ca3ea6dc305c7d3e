/** collect_shipping_data: the checkout form's address fields, checked and
    formatted into the three-line address stored on the order. */
module Shipping {
  import opened Wrappers
  import opened Text

  datatype ShippingData = ShippingData(
    customerName: string,
    address: string,
    city: string,
    country: string,
    postalCode: string)

  /** form_data.get(name, "").strip() */
  function Field(form: map<string, string>, name: string): string
  {
    Strip(if name in form then form[name] else "")
  }

  /** The values collect_shipping_data requires to be non-blank, in its order. */
  function RequiredValues(form: map<string, string>): seq<string>
  {
    [Field(form, "customer_name"), Field(form, "house_number"), Field(form, "street"),
     Field(form, "city"), Field(form, "province"), Field(form, "country"), Field(form, "postal_code")]
  }

  /** The first address line: house number and street, then ", Apt <apartment>"
      when an apartment is given. With both the house number and the street
      given, strip() removes nothing. */
  function FirstLine(form: map<string, string>): (line: string)
    ensures var house, street, apartment := Field(form, "house_number"), Field(form, "street"), Field(form, "apartment");
      house != "" && street != "" ==>
        line == house + " " + street + (if apartment != "" then ", Apt " + apartment else "")
  {
    var house, street := Field(form, "house_number"), Field(form, "street");
    var line := Strip(house + " " + street);
    var apartment := Field(form, "apartment");
    if house != "" && street != "" then
      StripJoined(house, street);
      if apartment != "" then line + ", Apt " + apartment else line
    else
      if apartment != "" then line + ", Apt " + apartment else line
  }

  /** The address stored on the order: the first line, "<city>, <province>"
      and "<country>, <postal code>", joined by newlines. It opens with the
      first line and closes with the country line, each set off by a newline. */
  function Address(form: map<string, string>): (address: string)
    ensures var first := FirstLine(form);
      |address| > |first| && address[..|first|] == first && address[|first|] == '\n'
    ensures var countryLine := Field(form, "country") + ", " + Field(form, "postal_code");
      |address| > |countryLine| && address[|address| - |countryLine|..] == countryLine
      && address[|address| - |countryLine| - 1] == '\n'
  {
    var first := FirstLine(form);
    var cityLine := Field(form, "city") + ", " + Field(form, "province");
    var countryLine := Field(form, "country") + ", " + Field(form, "postal_code");
    JoinedEnds(first, cityLine, countryLine);
    first + "\n" + cityLine + "\n" + countryLine
  }

  /** "<a>\n<b>\n<c>" opens with a and a newline and closes with a newline and c. */
  lemma JoinedEnds(a: string, b: string, c: string)
    ensures var s := a + "\n" + b + "\n" + c;
      |s| > |a| && s[..|a|] == a && s[|a|] == '\n'
      && |s| > |c| && s[|s| - |c|..] == c && s[|s| - |c| - 1] == '\n'
  {
    var s := a + "\n" + b + "\n" + c;
    assert s == a + ("\n" + b + "\n" + c);
    assert s == (a + "\n" + b + "\n") + c;
  }

  /** not all(values) for seven values: one of them is blank. */
  lemma BlankAmongSeven(a: string, b: string, c: string, d: string, e: string, f: string, g: string)
    ensures "" in [a, b, c, d, e, f, g] <==> a == "" || b == "" || c == "" || d == "" || e == "" || f == "" || g == ""
  {
    var values := [a, b, c, d, e, f, g];
    if "" in values {
      var i :| 0 <= i < 7 && values[i] == "";
    }
  }

  /** collect_shipping_data: None when a required field is blank. */
  function CollectShippingData(form: map<string, string>): (r: Option<ShippingData>)
    ensures r.Some? <==>
              (Field(form, "customer_name") != "" && Field(form, "house_number") != ""
               && Field(form, "street") != "" && Field(form, "city") != "" && Field(form, "province") != ""
               && Field(form, "country") != "" && Field(form, "postal_code") != "")
    ensures r.Some? ==> r.value.customerName == Field(form, "customer_name")
    ensures r.Some? ==> r.value.city == Field(form, "city") && r.value.country == Field(form, "country")
    ensures r.Some? ==> r.value.postalCode == Field(form, "postal_code") && r.value.address == Address(form)
  {
    var values := RequiredValues(form);
    BlankAmongSeven(values[0], values[1], values[2], values[3], values[4], values[5], values[6]);
    if "" in values then None
    else
      Some(ShippingData(Field(form, "customer_name"), Address(form), Field(form, "city"),
                        Field(form, "country"), Field(form, "postal_code")))
  }

  predicate NoNewline(form: map<string, string>, name: string)
  {
    '\n' !in Field(form, name)
  }

  /** Joining with '\n' and splitting again gives the three parts back. */
  lemma SplitThree(a: string, b: string, c: string)
    requires '\n' !in a && '\n' !in b && '\n' !in c
    ensures SplitAll(a + "\n" + b + "\n" + c, '\n') == [a, b, c]
  {
    var rest := b + ['\n'] + c;
    assert a + "\n" + b + "\n" + c == a + ['\n'] + rest;
    assert SplitOnce(c, '\n').None?;
    assert SplitAll(c, '\n') == [c];
    SplitOnceAt(b, '\n', c);
    assert SplitAll(rest, '\n') == [b] + SplitAll(c, '\n');
    SplitOnceAt(a, '\n', rest);
    assert SplitAll(a + ['\n'] + rest, '\n') == [a] + SplitAll(rest, '\n');
  }

  /** strip() leaves "<a> <b>" alone when a and b are stripped and non-empty. */
  lemma StripJoined(a: string, b: string)
    requires a != [] && !IsSpace(a[0]) && b != [] && !IsSpace(b[|b| - 1])
    ensures Strip(a + " " + b) == a + " " + b
  {
    var joined := a + " " + b;
    assert joined[0] == a[0] && joined[|joined| - 1] == b[|b| - 1];
    StripKeeps(joined, Spaces);
  }

  /** No part of the first line introduces a newline. */
  lemma FirstLineOneLine(form: map<string, string>)
    requires NoNewline(form, "house_number") && NoNewline(form, "street") && NoNewline(form, "apartment")
    ensures '\n' !in FirstLine(form)
  {
    var joined := Field(form, "house_number") + " " + Field(form, "street");
    assert '\n' !in joined;
    StripWithin(joined, Spaces);
    assert '\n' !in Strip(joined);
    assert '\n' !in ", Apt ";
  }

  /** "<a>, <b>" is one line when a and b are. */
  lemma CommaJoinOneLine(a: string, b: string)
    requires '\n' !in a && '\n' !in b
    ensures '\n' !in a + ", " + b
  {
    assert '\n' !in ", ";
  }

  /** None of the address fields holds a line break. */
  predicate OneLineFields(form: map<string, string>)
  {
    NoNewline(form, "house_number") && NoNewline(form, "street") && NoNewline(form, "apartment")
    && NoNewline(form, "city") && NoNewline(form, "province")
    && NoNewline(form, "country") && NoNewline(form, "postal_code")
  }

  /** The stored address is three lines: "<house> <street>[, Apt <apartment>]",
      "<city>, <province>" and "<country>, <postal code>"; the apartment part
      appears exactly when an apartment was given. */
  lemma AddressLines(form: map<string, string>)
    requires CollectShippingData(form).Some? && OneLineFields(form)
    ensures var house, street, apartment := Field(form, "house_number"), Field(form, "street"), Field(form, "apartment");
      SplitAll(CollectShippingData(form).value.address, '\n') ==
        [ house + " " + street + (if apartment != "" then ", Apt " + apartment else ""),
          Field(form, "city") + ", " + Field(form, "province"),
          Field(form, "country") + ", " + Field(form, "postal_code") ]
  {
    FirstLineOneLine(form);
    CommaJoinOneLine(Field(form, "city"), Field(form, "province"));
    CommaJoinOneLine(Field(form, "country"), Field(form, "postal_code"));
    SplitThree(FirstLine(form), Field(form, "city") + ", " + Field(form, "province"),
               Field(form, "country") + ", " + Field(form, "postal_code"));
  }
}
