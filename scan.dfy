/**
 * Reading a payload back into the fields it was built from: the partner of
 * the formatter. Because the formatter escapes nothing, a payload can be read
 * back only when the fields that precede a separator do not contain that
 * separator; the ambiguity lemmas at the end show that the restriction is
 * needed.
 */
module Scan {
  import opened Wrappers
  import opened Payload

  /** The text before and after the first occurrence of `c` in `s`, if there is one. */
  function SplitFirst(s: string, c: char): (r: Option<(string, string)>)
    ensures r.None? <==> c !in s
    ensures r.Some? ==> s == r.value.0 + [c] + r.value.1 && c !in r.value.0
  {
    if s == [] then Option.None
    else if s[0] == c then Some(([], s[1..]))
    else
      match SplitFirst(s[1..], c)
      case None => Option.None
      case Some(parts) => Some(([s[0]] + parts.0, parts.1))
  }

  /** Splitting at the first `c` recovers the text before it when that text holds no `c`. */
  lemma {:induction false} SplitFirstOf(a: string, b: string, c: char)
    requires c !in a
    ensures SplitFirst(a + [c] + b, c) == Some((a, b))
  {
    if a == [] {
      assert a + [c] + b == [c] + b;
    } else {
      SplitFirstOf(a[1..], b, c);
      var s := a + [c] + b;
      assert s[0] == a[0] != c;
      assert s[1..] == a[1..] + [c] + b;
      assert [a[0]] + a[1..] == a;
    }
  }

  /** The rest of `s` after the prefix `pre`, if `s` starts with it. */
  function StripPrefix(pre: string, s: string): (r: Option<string>)
    ensures r.Some? <==> pre <= s
    ensures r.Some? ==> s == pre + r.value
  {
    if pre <= s then Some(s[|pre|..]) else Option.None
  }

  /** The start of `s` before the suffix `suf`, if `s` ends with it. */
  function StripSuffix(suf: string, s: string): (r: Option<string>)
    ensures r.Some? <==> |suf| <= |s| && s[|s| - |suf|..] == suf
    ensures r.Some? ==> s == r.value + suf
  {
    if |suf| <= |s| && s[|s| - |suf|..] == suf then Some(s[..|s| - |suf|]) else Option.None
  }

  lemma StripPrefixOf(pre: string, x: string)
    ensures StripPrefix(pre, pre + x) == Some(x)
  {
    assert (pre + x)[|pre|..] == x;
  }

  lemma StripSuffixOf(suf: string, x: string)
    ensures StripSuffix(suf, x + suf) == Some(x)
  {
    assert (x + suf)[|x|..] == suf;
    assert (x + suf)[..|x|] == x;
  }

  /**
   * The text before the first occurrence of the separator's first character,
   * and what follows the whole separator, if the separator is there. The
   * fields of a payload are read with it: a field ends at the first
   * character that could begin the separator after it.
   */
  function Field(s: string, sep: string): (r: Option<(string, string)>)
    requires sep != []
    ensures r.Some? ==> s == r.value.0 + (sep + r.value.1) && sep[0] !in r.value.0
  {
    var split :- SplitFirst(s, sep[0]);
    var rest :- StripPrefix(sep[1..], split.1);
    assert [sep[0]] + sep[1..] == sep;
    Some((split.0, rest))
  }

  /** A field that does not contain the first character of its separator is read back whole. */
  lemma FieldOf(f: string, sep: string, rest: string)
    requires sep != [] && sep[0] !in f
    ensures Field(f + (sep + rest), sep) == Some((f, rest))
  {
    assert f + (sep + rest) == f + [sep[0]] + (sep[1..] + rest);
    SplitFirstOf(f, sep[1..] + rest, sep[0]);
    StripPrefixOf(sep[1..], rest);
  }

  /** Read a contact card back into its name, phone, e-mail and address. */
  function ParseContact(p: string): Option<Input> {
    var body :- StripPrefix(ContactHead, p);
    var fields :- StripSuffix(ContactTail, body);
    var name :- Field(fields, "\nTEL:");
    var phone :- Field(name.1, "\nEMAIL:");
    var email :- Field(phone.1, "\nADR:");
    Some(Contact(name.0, phone.0, email.0, email.1))
  }

  /** The label of an encryption mode back as the mode. */
  function ParseAuth(text: string): (r: Option<Auth>)
    ensures r.Some? ==> AuthLabel(r.value) == text
    ensures forall a :: text == AuthLabel(a) ==> r == Some(a)
  {
    if text == "WPA" then Some(WPA)
    else if text == "WEP" then Some(WEP)
    else if text == "None" then Some(NoAuth)
    else Option.None
  }

  /** Read a Wi-Fi string back into its network name, password and mode. */
  function ParseWiFi(p: string): Option<Input> {
    var rest :- StripPrefix(WiFiHead, p);
    var mode :- Field(rest, ";S:");
    var auth :- ParseAuth(mode.0);
    var ssid :- Field(mode.1, ";P:");
    var pwd :- StripSuffix(";;", ssid.1);
    Some(WiFi(ssid.0, pwd, auth))
  }

  /** Read a map link back into its latitude and longitude. */
  function ParseLocation(p: string): Option<Input> {
    var query :- StripPrefix(MapsHead, p);
    var coords :- Field(query, ",");
    Some(Location(coords.0, coords.1))
  }

  /** The contact card regrouped as head, fields and tail, with the fields nested to the right. */
  lemma VCardRegrouped(name: string, phone: string, email: string, addr: string)
    ensures VCard(name, phone, email, addr)
         == ContactHead + ((name + ("\nTEL:" + (phone + ("\nEMAIL:" + (email + ("\nADR:" + addr)))))) + ContactTail)
  {
  }

  /** The Wi-Fi string regrouped as head and the rest, nested to the right. */
  lemma WiFiRegrouped(ssid: string, pwd: string, auth: Auth)
    ensures WiFiConfig(ssid, pwd, auth) == WiFiHead + (AuthLabel(auth) + (";S:" + (ssid + (";P:" + (pwd + ";;")))))
  {
  }

  /** The contact card gives back its fields when the name, phone and e-mail hold no line feed. */
  lemma {:induction false} ContactRoundTrip(name: string, phone: string, email: string, addr: string)
    requires '\n' !in name && '\n' !in phone && '\n' !in email
    ensures ParseContact(Format(Contact(name, phone, email, addr))) == Some(Contact(name, phone, email, addr))
  {
    var afterPhone := email + ("\nADR:" + addr);
    var afterName := phone + ("\nEMAIL:" + afterPhone);
    var fields := name + ("\nTEL:" + afterName);
    VCardRegrouped(name, phone, email, addr);
    StripPrefixOf(ContactHead, fields + ContactTail);
    StripSuffixOf(ContactTail, fields);
    FieldOf(name, "\nTEL:", afterName);
    FieldOf(phone, "\nEMAIL:", afterPhone);
    FieldOf(email, "\nADR:", addr);
  }

  /** Whatever the contact reader accepts is exactly the card of what it returns. */
  lemma {:induction false} ContactSound(p: string)
    ensures ParseContact(p).Some? ==> var i := ParseContact(p).value;
      i.Contact? && '\n' !in i.name && '\n' !in i.phone && '\n' !in i.email && Format(i) == p
  {
    if ParseContact(p).Some? {
      var fields := StripSuffix(ContactTail, StripPrefix(ContactHead, p).value).value;
      var n := Field(fields, "\nTEL:").value;
      var t := Field(n.1, "\nEMAIL:").value;
      var e := Field(t.1, "\nADR:").value;
      assert ParseContact(p).value == Contact(n.0, t.0, e.0, e.1);
      assert p == ContactHead + (fields + ContactTail);
      assert fields == n.0 + ("\nTEL:" + (t.0 + ("\nEMAIL:" + (e.0 + ("\nADR:" + e.1)))));
      VCardRegrouped(n.0, t.0, e.0, e.1);
    }
  }


  /** The Wi-Fi string gives back its fields when the network name holds no semicolon; the password may hold anything. */
  lemma {:induction false} WiFiRoundTrip(ssid: string, pwd: string, auth: Auth)
    requires ';' !in ssid
    ensures ParseWiFi(Format(WiFi(ssid, pwd, auth))) == Some(WiFi(ssid, pwd, auth))
  {
    var mode := AuthLabel(auth);
    var afterSsid := pwd + ";;";
    var afterMode := ssid + (";P:" + afterSsid);
    var rest := mode + (";S:" + afterMode);
    WiFiRegrouped(ssid, pwd, auth);
    StripPrefixOf(WiFiHead, rest);
    FieldOf(mode, ";S:", afterMode);
    FieldOf(ssid, ";P:", afterSsid);
    StripSuffixOf(";;", pwd);
  }

  /** Whatever the Wi-Fi reader accepts is exactly the Wi-Fi string of what it returns. */
  lemma {:induction false} WiFiSound(p: string)
    ensures ParseWiFi(p).Some? ==> var i := ParseWiFi(p).value; i.WiFi? && ';' !in i.ssid && Format(i) == p
  {
    if ParseWiFi(p).Some? {
      var rest := StripPrefix(WiFiHead, p).value;
      var m := Field(rest, ";S:").value;
      var auth := ParseAuth(m.0).value;
      var s := Field(m.1, ";P:").value;
      var pwd := StripSuffix(";;", s.1).value;
      assert ParseWiFi(p).value == WiFi(s.0, pwd, auth);
      assert p == WiFiHead + rest;
      assert rest == AuthLabel(auth) + (";S:" + (s.0 + (";P:" + (pwd + ";;"))));
      WiFiRegrouped(s.0, pwd, auth);
    }
  }


  /** The map link regrouped as head and query, nested to the right. */
  lemma MapsRegrouped(lat: string, lon: string)
    ensures MapsLink(lat, lon) == MapsHead + (lat + ("," + lon))
  {
  }

  /** The map link gives back its coordinates when the latitude holds no comma; the longitude may hold anything. */
  lemma {:induction false} LocationRoundTrip(lat: string, lon: string)
    requires ',' !in lat
    ensures ParseLocation(Format(Location(lat, lon))) == Some(Location(lat, lon))
  {
    MapsRegrouped(lat, lon);
    StripPrefixOf(MapsHead, lat + ("," + lon));
    FieldOf(lat, ",", lon);
  }

  /** Whatever the location reader accepts is exactly the map link of what it returns. */
  lemma {:induction false} LocationSound(p: string)
    ensures ParseLocation(p).Some? ==> var i := ParseLocation(p).value; i.Location? && ',' !in i.lat && Format(i) == p
  {
    if ParseLocation(p).Some? {
      var query := StripPrefix(MapsHead, p).value;
      var coords := Field(query, ",").value;
      assert ParseLocation(p).value == Location(coords.0, coords.1);
      assert p == MapsHead + query;
      assert query == coords.0 + ("," + coords.1);
      MapsRegrouped(coords.0, coords.1);
    }
  }


  /** A name holding `\nTEL:` lets two different contacts print the same card. */
  lemma ContactAmbiguous(a: string, b: string, c: string, email: string, addr: string)
    ensures Contact(a + "\nTEL:" + b, c, email, addr) != Contact(a, b + "\nTEL:" + c, email, addr)
    ensures Format(Contact(a + "\nTEL:" + b, c, email, addr)) == Format(Contact(a, b + "\nTEL:" + c, email, addr))
  {
    var rest := "\nEMAIL:" + (email + ("\nADR:" + addr));
    VCardRegrouped(a + "\nTEL:" + b, c, email, addr);
    VCardRegrouped(a, b + "\nTEL:" + c, email, addr);
    assert (a + "\nTEL:" + b) + ("\nTEL:" + (c + rest)) == a + ("\nTEL:" + ((b + "\nTEL:" + c) + rest));
  }

  /** A network name holding `;P:` lets two different networks print the same string. */
  lemma WiFiAmbiguous(x: string, y: string, z: string, auth: Auth)
    ensures WiFi(x + ";P:" + y, z, auth) != WiFi(x, y + ";P:" + z, auth)
    ensures Format(WiFi(x + ";P:" + y, z, auth)) == Format(WiFi(x, y + ";P:" + z, auth))
  {
    WiFiRegrouped(x + ";P:" + y, z, auth);
    WiFiRegrouped(x, y + ";P:" + z, auth);
    assert (x + ";P:" + y) + (";P:" + (z + ";;")) == x + (";P:" + ((y + ";P:" + z) + ";;"));
  }

  /** A latitude holding a comma lets two different locations print the same link. */
  lemma LocationAmbiguous(a: string, b: string, c: string)
    ensures Location(a + "," + b, c) != Location(a, b + "," + c)
    ensures Format(Location(a + "," + b, c)) == Format(Location(a, b + "," + c))
  {
    MapsRegrouped(a + "," + b, c);
    MapsRegrouped(a, b + "," + c);
    assert (a + "," + b) + ("," + c) == a + ("," + (b + "," + c));
  }
}
