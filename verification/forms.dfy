/**
 * The message shapes of the oven: a queued message (`WhatsappForm`), the payload
 * posted to the provider (`WhatsappApiForm`), and the campaign request
 * (`OvenForm`) that `prepareBatch` turns into one queued message per recipient.
 */
module Forms {
  import opened Wrappers
  import opened JsBuiltins

  datatype Parameter = ImageParameter(imageId: string) | TextParameter(text: string)

  /** A component as sent: its placement ("header", "body" or "footer") and parameters. */
  datatype Component = Component(kind: string, parameters: seq<Parameter>)

  /** A queued message: raw recipient number, template name, language code, components. */
  datatype WhatsappForm = WhatsappForm(number: string, template: string, language: string, components: seq<Component>)

  datatype ApiTemplate = ApiTemplate(languageCode: string, name: string, components: seq<Component>)

  /** The body of the POST to the provider. */
  datatype ApiForm = ApiForm(product: string, template: ApiTemplate, kind: string, to: string)

  /** A component of a template as the provider lists it ("HEADER", "BODY", ...;
      the format is absent for plain-text components). */
  datatype TemplateComponent = TemplateComponent(kind: string, format: Option<string>)

  datatype Template = Template(name: string, language: string, components: seq<TemplateComponent>)

  /** A campaign: the recipients and the (possibly missing) template. */
  datatype OvenForm = OvenForm(to: seq<string>, template: Option<Template>)

  /** Reading `data.template!.name` when the template is missing throws. */
  datatype BuildError = MissingTemplate

  // ---------------------------------------------------------------- wire form

  /** The form `sendMessage` posts: the template travels unchanged and the
      recipient is "+55" followed by the number's digits (not the blacklist key). */
  function WireForm(m: WhatsappForm): (f: ApiForm)
    ensures f.product == "whatsapp" && f.kind == "template"
    ensures f.template.name == m.template && f.template.languageCode == m.language
    ensures f.template.components == m.components
    ensures |f.to| == 3 + |StripNonDigits(m.number)|
    ensures f.to[..3] == "+55" && f.to[3..] == StripNonDigits(m.number)
  {
    ApiForm("whatsapp", ApiTemplate(m.language, m.template, m.components), "template", "+55" + StripNonDigits(m.number))
  }

  /** The digits the provider sees are the country code 55 followed by exactly
      the digits of the queued number. */
  lemma WireRecipientDigits(m: WhatsappForm)
    ensures AllDigits(WireForm(m).to[3..])
    ensures StripNonDigits(WireForm(m).to) == "55" + StripNonDigits(m.number)
  {
    var f := WireForm(m);
    StripKeepsDigits(f.to[3..]);
    assert f.to == "+55" + f.to[3..];
    StripDistributes("+55", f.to[3..]);
    assert StripNonDigits("+55") == "55";
  }

  // ---------------------------------------------------------------- prepareBatch

  /** `component.format == "IMAGE"` */
  predicate IsImage(c: TemplateComponent) {
    c.format == Some("IMAGE")
  }

  /** The `.filter` of the template's components. */
  function ImageOnly(cs: seq<TemplateComponent>): (r: seq<TemplateComponent>)
    ensures forall c :: c in r <==> c in cs && IsImage(c)
    ensures |r| <= |cs|
  {
    if cs == [] then [] else (if IsImage(cs[0]) then [cs[0]] else []) + ImageOnly(cs[1..])
  }

  /** The `.map` callback: lower-cased placement, and the shared image id when
      the component is an image (the other branch yields no parameters). */
  function WireComponent(c: TemplateComponent, imageId: string): (r: Component)
    ensures r.kind == LowerCase(c.kind) && |r.kind| == |c.kind|
    ensures IsImage(c) ==> r.parameters == [ImageParameter(imageId)]
    ensures !IsImage(c) ==> r.parameters == []
  {
    Component(LowerCase(c.kind), if IsImage(c) then [ImageParameter(imageId)] else [])
  }

  function WireComponents(cs: seq<TemplateComponent>, imageId: string): (r: seq<Component>)
    ensures |r| == |cs|
  {
    if cs == [] then [] else [WireComponent(cs[0], imageId)] + WireComponents(cs[1..], imageId)
  }

  /** The components every form of a campaign carries. */
  function ImageComponents(cs: seq<TemplateComponent>, imageId: string): seq<Component> {
    WireComponents(ImageOnly(cs), imageId)
  }

  function FormFor(number: string, t: Template, imageId: string): WhatsappForm {
    WhatsappForm(number, t.name, t.language, ImageComponents(t.components, imageId))
  }

  /** `data.to.map(...)`: form i is the form for recipient i. */
  function FormsFor(numbers: seq<string>, t: Template, imageId: string): (r: seq<WhatsappForm>)
    ensures |r| == |numbers|
    ensures forall i :: 0 <= i < |numbers| ==> r[i] == FormFor(numbers[i], t, imageId)
  {
    if numbers == [] then [] else [FormFor(numbers[0], t, imageId)] + FormsFor(numbers[1..], t, imageId)
  }

  /** The forms `prepareBatch` queues, or the error it throws: the map callback
      dereferences the template only when there is at least one recipient. */
  function BatchForms(data: OvenForm, imageId: string): (r: Result<seq<WhatsappForm>, BuildError>)
    ensures r.Err? <==> data.template.None? && |data.to| > 0
    ensures r.Ok? ==> |r.value| == |data.to|
  {
    if data.to == [] then Ok([])
    else match data.template
      case None => Err(MissingTemplate)
      case Some(t) => Ok(FormsFor(data.to, t, imageId))
  }

  /** One form per recipient, in recipient order, each carrying the template's
      name and language and only its image components. */
  lemma BatchFormsPerRecipient(data: OvenForm, imageId: string)
    requires data.template.Some?
    ensures BatchForms(data, imageId).Ok?
    ensures var forms := BatchForms(data, imageId).value;
      |forms| == |data.to| &&
      forall i :: 0 <= i < |forms| ==>
        forms[i].number == data.to[i] &&
        forms[i].template == data.template.value.name &&
        forms[i].language == data.template.value.language &&
        forms[i].components == ImageComponents(data.template.value.components, imageId)
  {
  }

  lemma {:induction false} WireComponentsAt(cs: seq<TemplateComponent>, imageId: string, k: nat)
    requires k < |cs|
    ensures WireComponents(cs, imageId)[k] == WireComponent(cs[k], imageId)
  {
    if k > 0 {
      WireComponentsAt(cs[1..], imageId, k - 1);
    }
  }

  /** The filter keeps the image components in their order. */
  lemma {:induction false} ImageOnlyDistributes(a: seq<TemplateComponent>, b: seq<TemplateComponent>)
    ensures ImageOnly(a + b) == ImageOnly(a) + ImageOnly(b)
  {
    if a == [] {
      assert a + b == b;
    } else {
      assert (a + b)[1..] == a[1..] + b;
      ImageOnlyDistributes(a[1..], b);
    }
  }

  /** Every component of a campaign form is one of the template's image
      components, in order, with its placement lower-cased and exactly one
      parameter: the shared image id. */
  lemma ImageComponentsShape(cs: seq<TemplateComponent>, imageId: string)
    ensures |ImageComponents(cs, imageId)| == |ImageOnly(cs)|
    ensures forall k :: 0 <= k < |ImageOnly(cs)| ==>
      ImageComponents(cs, imageId)[k] == Component(LowerCase(ImageOnly(cs)[k].kind), [ImageParameter(imageId)])
  {
    var images := ImageOnly(cs);
    forall k | 0 <= k < |images|
      ensures ImageComponents(cs, imageId)[k] == Component(LowerCase(images[k].kind), [ImageParameter(imageId)])
    {
      WireComponentsAt(images, imageId, k);
      assert images[k] in images;
    }
  }

  /** A template without image components gives forms without components. */
  lemma NoImageNoComponents(cs: seq<TemplateComponent>, imageId: string)
    requires forall i :: 0 <= i < |cs| ==> !IsImage(cs[i])
    ensures ImageComponents(cs, imageId) == []
  {
    assert forall c :: c in ImageOnly(cs) ==> c in cs && IsImage(c);
  }
}
