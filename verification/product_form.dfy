/** The product form shared by the add and edit dialogs: its text fields,
    the change handlers, the multipart payload it submits, and the submit
    guard. */
module ProductForm {
  import opened Common
  import Api

  /** The four text inputs, each with the `name` attribute the change
      handler uses as the key. */
  datatype TextField = NameField | DescriptionField | PriceField | StockField

  function Key(f: TextField): string {
    match f
    case NameField => "name"
    case DescriptionField => "description"
    case PriceField => "price"
    case StockField => "stockQuantity"
  }

  /** The form's values, all strings. `imageUrl` exists only in the edit
      dialog's form and is never submitted. */
  datatype FormData = FormData(name: string, description: string, price: string, stockQuantity: string,
                               categoryId: string, imageUrl: Option<string>)

  function Read(form: FormData, f: TextField): string {
    match f
    case NameField => form.name
    case DescriptionField => form.description
    case PriceField => form.price
    case StockField => form.stockQuantity
  }

  /** `handleChange`: the named field takes the typed value. */
  function HandleChange(form: FormData, f: TextField, value: string): (r: FormData)
    ensures Read(r, f) == value
    ensures forall g :: g != f ==> Read(r, g) == Read(form, g)
    ensures r.categoryId == form.categoryId && r.imageUrl == form.imageUrl
  {
    match f
    case NameField => form.(name := value)
    case DescriptionField => form.(description := value)
    case PriceField => form.(price := value)
    case StockField => form.(stockQuantity := value)
  }

  /** `handleCategoryChange`: only the category changes. */
  function HandleCategoryChange(form: FormData, value: string): (r: FormData)
    ensures r.categoryId == value
    ensures forall g :: Read(r, g) == Read(form, g)
    ensures r.imageUrl == form.imageUrl
  {
    form.(categoryId := value)
  }

  /** `handleFileChange`: the first chosen file replaces the current one;
      an empty choice keeps it. */
  function HandleFileChange(current: Option<Api.FileRef>, files: seq<Api.FileRef>): (r: Option<Api.FileRef>)
    ensures |files| > 0 ==> r == Some(files[0])
    ensures |files| == 0 ==> r == current
  {
    if |files| > 0 then Some(files[0]) else current
  }

  /** The order in which the text inputs are appended to the body. */
  function Position(f: TextField): (i: nat)
    ensures i < 4
  {
    match f
    case NameField => 0
    case DescriptionField => 1
    case PriceField => 2
    case StockField => 3
  }

  /** The multipart body: the five text values in a fixed order, then the
      image when one is chosen. */
  function Payload(form: FormData, image: Option<Api.FileRef>): (p: seq<(string, Api.FormValue)>)
    ensures |p| == if image.Some? then 6 else 5
    ensures forall i :: 0 <= i < |p| ==> p[i].0 != "imageUrl"
    ensures forall f :: p[Position(f)] == (Key(f), Api.Field(Read(form, f)))
    ensures p[4] == ("categoryId", Api.Field(form.categoryId))
    ensures forall i :: 0 <= i < 5 ==> p[i].1.Field?
    ensures image.Some? ==> p[5] == ("imageFile", Api.Upload(image.value))
  {
    var text := [("name", Api.Field(form.name)), ("description", Api.Field(form.description)),
                 ("price", Api.Field(form.price)), ("stockQuantity", Api.Field(form.stockQuantity)),
                 ("categoryId", Api.Field(form.categoryId))];
    if image.Some? then text + [("imageFile", Api.Upload(image.value))] else text
  }

  /** The text value of the first entry named `key` in a multipart body. */
  function FieldValue(p: seq<(string, Api.FormValue)>, key: string): Option<string> {
    if |p| == 0 then None
    else if p[0].0 == key then (if p[0].1.Field? then Some(p[0].1.text) else None)
    else FieldValue(p[1..], key)
  }

  /** The file of the first entry named `key`. */
  function FileValue(p: seq<(string, Api.FormValue)>, key: string): Option<Api.FileRef> {
    if |p| == 0 then None
    else if p[0].0 == key then (if p[0].1.Upload? then Some(p[0].1.file) else None)
    else FileValue(p[1..], key)
  }

  /** The first entry named `key` decides both lookups. */
  lemma {:induction false} FirstEntryDecides(p: seq<(string, Api.FormValue)>, i: nat, key: string)
    requires i < |p| && p[i].0 == key
    requires forall j :: 0 <= j < i ==> p[j].0 != key
    ensures p[i].1.Field? ==> FieldValue(p, key) == Some(p[i].1.text)
    ensures p[i].1.Upload? ==> FileValue(p, key) == Some(p[i].1.file)
  {
    if i > 0 {
      assert forall j :: 0 <= j < i - 1 ==> p[1..][j] == p[j + 1];
      FirstEntryDecides(p[1..], i - 1, key);
    }
  }

  /** No entry named `key` means neither lookup finds anything. */
  lemma {:induction false} AbsentKey(p: seq<(string, Api.FormValue)>, key: string)
    requires forall j :: 0 <= j < |p| ==> p[j].0 != key
    ensures FieldValue(p, key).None? && FileValue(p, key).None?
  {
    if |p| > 0 {
      assert forall j :: 0 <= j < |p| - 1 ==> p[1..][j] == p[j + 1];
      AbsentKey(p[1..], key);
    }
  }

  /** What a server reads back from the body: the form without `imageUrl`,
      and the file. */
  function Decode(p: seq<(string, Api.FormValue)>): (FormData, Option<Api.FileRef>) {
    (FormData(Text(FieldValue(p, "name")), Text(FieldValue(p, "description")), Text(FieldValue(p, "price")),
              Text(FieldValue(p, "stockQuantity")), Text(FieldValue(p, "categoryId")), None),
     FileValue(p, "imageFile"))
  }

  /** Decoding the body gives back every submitted value and the file;
      only `imageUrl` is lost. */
  lemma PayloadRoundTrip(form: FormData, image: Option<Api.FileRef>)
    ensures Decode(Payload(form, image)) == (form.(imageUrl := None), image)
    ensures forall f :: FieldValue(Payload(form, image), Key(f)) == Some(Read(form, f))
  {
    var p := Payload(form, image);
    FirstEntryDecides(p, 0, "name");
    FirstEntryDecides(p, 1, "description");
    FirstEntryDecides(p, 2, "price");
    FirstEntryDecides(p, 3, "stockQuantity");
    FirstEntryDecides(p, 4, "categoryId");
    if image.Some? {
      FirstEntryDecides(p, 5, "imageFile");
    } else {
      AbsentKey(p, "imageFile");
    }
  }

  /** The submit guard's message, when it stops the submission: without a
      token "Authentication error."; otherwise "Please select a category.",
      also when the reason is something else (the edit dialog's missing
      product). */
  function GuardMessage(hasProduct: bool, form: FormData, token: Option<string>): (m: Option<string>)
    ensures m.None? <==> hasProduct && Truthy(form.categoryId) && Present(token)
    ensures m.Some? && !Present(token) ==> m.value == "Authentication error."
    ensures m.Some? && Present(token) ==> m.value == "Please select a category."
  {
    if !hasProduct || !Truthy(form.categoryId) || !Present(token) then
      Some(if !Present(token) then "Authentication error." else "Please select a category.")
    else None
  }
}
