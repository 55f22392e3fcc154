/**
 * The payload formatter: turns the data type chosen in the form, together
 * with the strings typed into its fields, into the one string that is handed
 * to the barcode encoder. Every template is literal; no field is escaped.
 */
module Payload {

  /** The encryption modes offered for a Wi-Fi network, printed verbatim. */
  datatype Auth = WPA | WEP | NoAuth

  /**
   * One generation request. `None` is the empty selection (and any other
   * value of the data-type selector); every other variant carries the raw
   * text of its input fields, which default to the empty string.
   */
  datatype Input =
    | None
    | Text(s: string)
    | Url(s: string)
    | Contact(name: string, phone: string, email: string, addr: string)
    | WiFi(ssid: string, pwd: string, auth: Auth)
    | Location(lat: string, lon: string)

  /** The label of an encryption mode as the selector shows and emits it. */
  function AuthLabel(a: Auth): (r: string)
    ensures r == "WPA" || r == "WEP" || r == "None"
    ensures ';' !in r
  {
    match a
    case WPA => "WPA"
    case WEP => "WEP"
    case NoAuth => "None"
  }

  /** Distinct modes print distinct labels, so the label identifies the mode. */
  lemma AuthLabelInjective(a: Auth, b: Auth)
    ensures AuthLabel(a) == AuthLabel(b) <==> a == b
  {
    if a != b {
      assert AuthLabel(a)[2] != AuthLabel(b)[2] || AuthLabel(a)[1] != AuthLabel(b)[1];
    }
  }

  const ContactHead: string := "BEGIN:VCARD\nVERSION:3.0\nN:"
  const ContactTail: string := "\nEND:VCARD"
  const WiFiHead: string := "WIFI:T:"
  const MapsHead: string := "https://maps.google.com/?q="

  /** Number of characters a contact card adds around its four fields. */
  const ContactTemplateLength: nat := 53
  /** Number of characters a Wi-Fi string adds around its three fields. */
  const WiFiTemplateLength: nat := 15
  /** Number of characters a map link adds around its two coordinates. */
  const MapsTemplateLength: nat := 28

  /** The contact card: vCard 3.0 property names, bare line feeds, no escaping. */
  function VCard(name: string, phone: string, email: string, addr: string): (r: string)
    ensures |r| == ContactTemplateLength + |name| + |phone| + |email| + |addr|
    ensures ContactHead <= r
    ensures r[|r| - |ContactTail|..] == ContactTail
    ensures r[..12] == "BEGIN:VCARD\n"
  {
    ContactHead + name + "\nTEL:" + phone + "\nEMAIL:" + email + "\nADR:" + addr + ContactTail
  }

  /** The Wi-Fi network string `WIFI:T:<mode>;S:<ssid>;P:<password>;;`, no escaping. */
  function WiFiConfig(ssid: string, pwd: string, auth: Auth): (r: string)
    ensures |r| == WiFiTemplateLength + |AuthLabel(auth)| + |ssid| + |pwd|
    ensures WiFiHead + AuthLabel(auth) + ";S:" <= r
    ensures r[|r| - 2..] == ";;"
  {
    "WIFI:T:" + AuthLabel(auth) + ";S:" + ssid + ";P:" + pwd + ";;"
  }

  /** A map link whose query is the two coordinates joined by a comma. */
  function MapsLink(lat: string, lon: string): (r: string)
    ensures |r| == MapsTemplateLength + |lat| + |lon|
    ensures MapsHead <= r
    ensures r[|MapsHead| + |lat|] == ','
  {
    "https://maps.google.com/?q=" + lat + "," + lon
  }

  /** The requests whose payload is empty: no selection, an empty text or an empty URL. */
  predicate Blank(i: Input) {
    i.None? || i == Text("") || i == Url("")
  }

  /**
   * The payload of a request. Text and URLs pass through unchanged, the
   * other three variants fill their template, and no selection gives the
   * empty string. The payload is empty exactly for the blank requests, so a
   * contact, Wi-Fi or location request is never empty, even with every field
   * left blank.
   */
  function Format(i: Input): (r: string)
    ensures r == "" <==> Blank(i)
    ensures (i.Text? || i.Url?) ==> r == i.s
  {
    match i
    case None => ""
    case Text(s) => s
    case Url(s) => s
    case Contact(name, phone, email, addr) => VCard(name, phone, email, addr)
    case WiFi(ssid, pwd, auth) => WiFiConfig(ssid, pwd, auth)
    case Location(lat, lon) => MapsLink(lat, lon)
  }

  /** With no data type selected, the payload is the empty string. */
  lemma UnselectedIsEmpty()
    ensures Format(None) == ""
  {
  }

  /** A text and a URL with the same characters give the same payload: the payload does not record which was chosen. */
  lemma TextAndUrlAgree(s: string)
    ensures Format(Text(s)) == Format(Url(s)) == s
  {
  }

  /** The contact card for name "A", phone "1", e-mail "e" and address "d". */
  lemma ContactExample()
    ensures Format(Contact("A", "1", "e", "d"))
         == "BEGIN:VCARD\nVERSION:3.0\nN:A\nTEL:1\nEMAIL:e\nADR:d\nEND:VCARD"
  {
    assert Format(Contact("A", "1", "e", "d"))
        == ContactHead + "A" + "\nTEL:" + "1" + "\nEMAIL:" + "e" + "\nADR:" + "d" + ContactTail;
    ContactLiteral();
  }

  /** The concatenation behind the contact example, spelled out as one literal. */
  lemma ContactLiteral()
    ensures ContactHead + "A" + "\nTEL:" + "1" + "\nEMAIL:" + "e" + "\nADR:" + "d" + ContactTail
         == "BEGIN:VCARD\nVERSION:3.0\nN:A\nTEL:1\nEMAIL:e\nADR:d\nEND:VCARD"
  {
    assert ContactHead + "A" == "BEGIN:VCARD\nVERSION:3.0\nN:A";
    assert "BEGIN:VCARD\nVERSION:3.0\nN:A" + "\nTEL:" == "BEGIN:VCARD\nVERSION:3.0\nN:A\nTEL:";
    assert "BEGIN:VCARD\nVERSION:3.0\nN:A\nTEL:" + "1" == "BEGIN:VCARD\nVERSION:3.0\nN:A\nTEL:1";
    assert "BEGIN:VCARD\nVERSION:3.0\nN:A\nTEL:1" + "\nEMAIL:" == "BEGIN:VCARD\nVERSION:3.0\nN:A\nTEL:1\nEMAIL:";
    assert "BEGIN:VCARD\nVERSION:3.0\nN:A\nTEL:1\nEMAIL:" + "e" == "BEGIN:VCARD\nVERSION:3.0\nN:A\nTEL:1\nEMAIL:e";
    assert "BEGIN:VCARD\nVERSION:3.0\nN:A\nTEL:1\nEMAIL:e" + "\nADR:" == "BEGIN:VCARD\nVERSION:3.0\nN:A\nTEL:1\nEMAIL:e\nADR:";
    assert "BEGIN:VCARD\nVERSION:3.0\nN:A\nTEL:1\nEMAIL:e\nADR:" + "d" == "BEGIN:VCARD\nVERSION:3.0\nN:A\nTEL:1\nEMAIL:e\nADR:d";
  }

  /** The Wi-Fi string for a WPA network "Home" with password "secret". */
  lemma WiFiExample()
    ensures Format(WiFi("Home", "secret", WPA)) == "WIFI:T:WPA;S:Home;P:secret;;"
  {
    assert Format(WiFi("Home", "secret", WPA)) == "WIFI:T:" + "WPA" + ";S:" + "Home" + ";P:" + "secret" + ";;";
    WiFiLiteral();
  }

  /** The concatenation behind the Wi-Fi example, spelled out as one literal. */
  lemma WiFiLiteral()
    ensures "WIFI:T:" + "WPA" + ";S:" + "Home" + ";P:" + "secret" + ";;" == "WIFI:T:WPA;S:Home;P:secret;;"
  {
    assert "WIFI:T:" + "WPA" == "WIFI:T:WPA";
    assert "WIFI:T:WPA" + ";S:" == "WIFI:T:WPA;S:";
    assert "WIFI:T:WPA;S:" + "Home" == "WIFI:T:WPA;S:Home";
    assert "WIFI:T:WPA;S:Home" + ";P:" == "WIFI:T:WPA;S:Home;P:";
    assert "WIFI:T:WPA;S:Home;P:" + "secret" == "WIFI:T:WPA;S:Home;P:secret";
  }

  /** The map link for latitude "37.5" and longitude "127.0". */
  lemma LocationExample()
    ensures Format(Location("37.5", "127.0")) == "https://maps.google.com/?q=37.5,127.0"
  {
    assert Format(Location("37.5", "127.0")) == "https://maps.google.com/?q=" + "37.5" + "," + "127.0";
    LocationLiteral();
  }

  /** The concatenation behind the location example, spelled out as one literal. */
  lemma LocationLiteral()
    ensures "https://maps.google.com/?q=" + "37.5" + "," + "127.0" == "https://maps.google.com/?q=37.5,127.0"
  {
    assert "https://maps.google.com/?q=" + "37.5" == "https://maps.google.com/?q=37.5";
    assert "https://maps.google.com/?q=37.5" + "," == "https://maps.google.com/?q=37.5,";
  }
}
