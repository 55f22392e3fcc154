# QR code generator: payload formatting, generation guard and logo placement

The modelled program is a small form that turns what a user types into a QR
code. This project models the three pieces of it that are pure logic:

- **Payload formatter.** The data type chosen in the selector (none, text, URL,
  contact, Wi-Fi, location) and the strings typed into its fields become one
  payload string. Text and URLs pass through unchanged. A contact becomes a card
  with vCard 3.0 property names (`N`, `TEL`, `EMAIL`, `ADR`, RFC 2426 sections
  3.1.2, 3.3.1, 3.3.2 and 3.2.1), joined by bare line feeds. A Wi-Fi network
  becomes `WIFI:T:<mode>;S:<ssid>;P:<password>;;`. A location becomes a
  Google Maps link `https://maps.google.com/?q=<lat>,<lon>`. No field is
  escaped, and the model escapes nothing either.
- **Generation guard.** Pressing the generate button with an empty payload
  gives a warning and no image.
- **Logo placement.** An uploaded logo is resized to a fifth of the rendered
  image on each axis (floor division) and pasted at the offset that centres it
  (floor division by two).

Modules:

- `Wrappers` (`wrappers.dfy`): `Option` and `Result`.
- `Payload` (`payload.dfy`): the `Input` and `Auth` datatypes, the three
  templates and `Format`.
- `Geometry` (`geometry.dfy`): logo extent, offset and placement rectangle.
- `Generator` (`generator.dfy`): one generation request. The rendered image
  size is a parameter, because the barcode library decides it.
- `Scan` (`scan.dfy`): readers that take a payload back apart into its
  fields. They are the partners of the templates. The round-trip lemmas say
  when a payload determines its fields. The soundness lemmas say that every
  accepted string is the payload of what the reader returns. Because nothing
  is escaped, a field must not contain the separator that follows it. The
  ambiguity lemmas show, for all field values, pairs of different inputs that
  print the same payload when a field does.

The "None" encryption mode is the constructor `Auth.NoAuth`. Its label is the
string `None`. The name avoids a clash with `Input.None`, which stands for
"no data type selected".

## Model

| member | source | states |
|---|---|---|
| Payload.AuthLabel | qrcodeGenerate.py:52 | the mode is printed as one of the three selector labels `WPA`, `WEP`, `None`, none holding a `;` |
| Payload.AuthLabelInjective | qrcodeGenerate.py:52 | two modes print the same label exactly when they are the same mode |
| Payload.VCard | qrcodeGenerate.py:39-47 | the card starts with `BEGIN:VCARD\n` and with the head up to `N:`, ends with `\nEND:VCARD`, and is 53 characters longer than its four fields together |
| Payload.WiFiConfig | qrcodeGenerate.py:52-54 | the Wi-Fi string starts `WIFI:T:<mode>;S:`, ends with `;;`, and is 15 characters longer than mode label, SSID and password together |
| Payload.MapsLink | qrcodeGenerate.py:57-59 | the link starts with the Google Maps query prefix, has the comma right after the latitude, and is 28 characters longer than both coordinates |
| Payload.Format | qrcodeGenerate.py:26-61 | the payload is empty exactly for no selection, an empty text or an empty URL; text and URL pass through unchanged |
| Payload.UnselectedIsEmpty | qrcodeGenerate.py:60-61 | with no data type selected the payload is the empty string |
| Payload.TextAndUrlAgree | qrcodeGenerate.py:26-31 | text and URL with the same characters both give exactly those characters |
| Payload.ContactExample | qrcodeGenerate.py:39-47 | name A, phone 1, e-mail e, address d give `BEGIN:VCARD\nVERSION:3.0\nN:A\nTEL:1\nEMAIL:e\nADR:d\nEND:VCARD` |
| Payload.WiFiExample | qrcodeGenerate.py:54 | WPA, SSID Home, password secret give `WIFI:T:WPA;S:Home;P:secret;;` |
| Payload.LocationExample | qrcodeGenerate.py:59 | latitude 37.5, longitude 127.0 give `https://maps.google.com/?q=37.5,127.0` |
| Geometry.LogoExtent | qrcodeGenerate.py:103-105 | the logo side is the largest whole number whose fivefold fits in the image side, so it never exceeds the side |
| Geometry.LogoOrigin | qrcodeGenerate.py:108-109 | the offset plus the logo side stays within the image side, and the room left over minus twice the offset is 0 or 1 |
| Geometry.LogoPlacement | qrcodeGenerate.py:103-110 | the paste rectangle has the one-fifth size, lies inside the image, and is centred to within one pixel on both axes |
| Geometry.PlacementUnique | qrcodeGenerate.py:109 | any rectangle of the logo's size that is centred this way is the placement: the offset is determined |
| Geometry.Placement500 | qrcodeGenerate.py:103-109 | a 500 by 500 image takes a 100 by 100 logo at offset (200, 200) |
| Generator.Generate | qrcodeGenerate.py:76-110 | a request is refused exactly when its payload is empty; otherwise the payload handed on is the formatted one, and a logo is placed exactly when one was uploaded, inside the image and centred |
| Generator.TemplatesNeverRefused | qrcodeGenerate.py:76-79 | contact, Wi-Fi and location requests are never refused, even with every field blank |
| Generator.RefusalIgnoresImage | qrcodeGenerate.py:76-79 | whether a request is refused depends only on the request, not on the image size or the logo |
| Scan.ParseAuth | qrcodeGenerate.py:52 | reading a mode label back gives the mode that prints it, and accepts every label a mode prints |
| Scan.ContactRoundTrip | qrcodeGenerate.py:39-47 | the card gives back all four fields when name, phone and e-mail hold no line feed |
| Scan.ContactSound | qrcodeGenerate.py:39-47 | every string the card reader accepts is the card of the contact it returns |
| Scan.WiFiRoundTrip | qrcodeGenerate.py:54 | the Wi-Fi string gives back SSID, password and mode when the SSID holds no `;` |
| Scan.WiFiSound | qrcodeGenerate.py:54 | every string the Wi-Fi reader accepts is the Wi-Fi string of the network it returns |
| Scan.LocationRoundTrip | qrcodeGenerate.py:59 | the link gives back both coordinates when the latitude holds no comma |
| Scan.LocationSound | qrcodeGenerate.py:59 | every string the location reader accepts is the link of the location it returns |
| Scan.ContactAmbiguous | qrcodeGenerate.py:39-47 | for all fields, moving text across a `\nTEL:` between name and phone gives a different contact with the same card |
| Scan.WiFiAmbiguous | qrcodeGenerate.py:54 | for all fields, moving text across a `;P:` between SSID and password gives a different network with the same string |
| Scan.LocationAmbiguous | qrcodeGenerate.py:59 | for all fields, moving text across a comma between latitude and longitude gives a different location with the same link |

## Left out

- The Streamlit page: title, selectors, text inputs, sliders for box size and border, colour pickers, file uploader, buttons, image display, warning and download button. These are presentation; the model starts from the values they deliver.
- QR encoding (`qrcode.QRCode`, `add_data`, `make(fit=True)`, `make_image`): a third-party library. Its result enters only as the size of the rendered image, a parameter of `Generator.Generate`. Its exception for a payload beyond capacity is not caught by the program and is not modelled.
- Pillow image work: opening and converting the logo, Lanczos resizing, alpha-masked pasting, and the fallback for older resample-filter names. These are foreign calls with pixel arithmetic. The model gives only the rectangle the logo is resized to and pasted into. A logo file that cannot be decoded raises inside the library and is not modelled.
- PNG serialisation into a memory buffer and the suggested file name: I/O.
- Escaping of `;`, `:`, `,`, `\` or line feeds inside fields: the program does none, so the model does none. The ambiguity lemmas show what follows from that.
