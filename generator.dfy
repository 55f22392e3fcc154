/**
 * One press of the generate button: the payload is refused when it is empty;
 * otherwise it goes to the barcode encoder, and an uploaded logo is placed on
 * the rendered image. The encoder and the image library are outside the
 * model: the size of the rendered image is a parameter, and the plan records
 * what is handed to them.
 */
module Generator {
  import opened Wrappers
  import opened Payload
  import opened Geometry

  /** Why a generation request produced no image. */
  datatype Error = EmptyPayload

  /**
   * What a successful request hands on: the payload to encode and, when a
   * logo was uploaded, the rectangle the resized logo is pasted into.
   */
  datatype Plan = Plan(payload: string, logo: Option<Rect>)

  /**
   * Plan one generation request. `rendered` is the size of the image the
   * encoder renders for the payload; `hasLogo` says whether a logo file was
   * uploaded.
   */
  function Generate(i: Input, rendered: Size, hasLogo: bool): (r: Result<Plan, Error>)
    ensures r.Failure? <==> Blank(i)
    ensures r.Success? ==> r.value.payload == Format(i) && r.value.payload != ""
    ensures r.Success? ==> (r.value.logo.Some? <==> hasLogo)
    ensures r.Success? && hasLogo ==> r.value.logo.value == LogoPlacement(rendered)
    ensures r.Success? && hasLogo ==>
      Within(r.value.logo.value, rendered) && Centred(r.value.logo.value, rendered)
  {
    var data := Format(i);
    if data == "" then Failure(EmptyPayload)
    else if hasLogo then Success(Plan(data, Some(LogoPlacement(rendered))))
    else Success(Plan(data, Option.None))
  }

  /** Contact cards, Wi-Fi strings and map links are never refused, even with every field blank. */
  lemma TemplatesNeverRefused(i: Input, rendered: Size, hasLogo: bool)
    requires i.Contact? || i.WiFi? || i.Location?
    ensures Generate(i, rendered, hasLogo).Success?
  {
  }

  /** The refusal does not depend on the image or the logo: only the request decides it. */
  lemma RefusalIgnoresImage(i: Input, s1: Size, s2: Size, l1: bool, l2: bool)
    ensures Generate(i, s1, l1).Failure? == Generate(i, s2, l2).Failure?
  {
  }
}
