/**
 * The submit handler of the new-dish form (my-app/app/dishes/new/page.tsx,
 * `handleSubmit`): an ordered chain of guards that either shows exactly one
 * error message or adds the dish to the store once and navigates to the list.
 */
module NewDishPage {
  import opened DishTypes
  import DishStore

  /** The characters `String.prototype.trim` strips, outside the range U+2000..U+200A. */
  const TrimmableSingles: set<char> := {
    '\t', '\n', '\U{000B}', '\U{000C}', '\r', ' ', '\U{00A0}', '\U{1680}',
    '\U{2028}', '\U{2029}', '\U{202F}', '\U{205F}', '\U{3000}', '\U{FEFF}'}

  /** The characters `String.prototype.trim` strips: ECMAScript WhiteSpace and LineTerminator. */
  predicate IsTrimmable(c: char)
  {
    c in TrimmableSingles || '\U{2000}' <= c <= '\U{200A}'
  }

  predicate AllTrimmable(s: string)
  {
    forall i :: 0 <= i < |s| ==> IsTrimmable(s[i])
  }

  /** How many trimmable characters `s` starts with. */
  function LeadingTrimmable(s: string): (n: nat)
    ensures n <= |s| && AllTrimmable(s[..n])
    ensures n < |s| ==> !IsTrimmable(s[n])
  {
    if s != [] && IsTrimmable(s[0]) then
      var n := LeadingTrimmable(s[1..]);
      assert forall i :: 1 <= i < n + 1 ==> s[i] == s[1..][..n][i - 1];
      n + 1
    else 0
  }

  /** `s` without its leading trimmable characters. */
  function TrimStart(s: string): (r: string)
    ensures |r| <= |s| && r == s[|s| - |r|..]
    ensures r != [] ==> !IsTrimmable(r[0])
    ensures AllTrimmable(s[..|s| - |r|])
  {
    s[LeadingTrimmable(s)..]
  }

  /** `s` without its trailing trimmable characters. */
  function TrimEnd(s: string): (r: string)
    ensures |r| <= |s| && r == s[..|r|]
    ensures r != [] ==> !IsTrimmable(r[|r| - 1])
    ensures AllTrimmable(s[|r|..])
  {
    if s != [] && IsTrimmable(s[|s| - 1]) then TrimEnd(s[..|s| - 1]) else s
  }

  /** `String.prototype.trim`. */
  function Trim(s: string): string
  {
    TrimEnd(TrimStart(s))
  }

  /** A name trims to the empty string exactly when every character of it is whitespace. */
  lemma TrimEmptyIffBlank(s: string)
    ensures Trim(s) == "" <==> AllTrimmable(s)
  {
    var t := TrimStart(s);
    if !AllTrimmable(s) {
      var i :| 0 <= i < |s| && !IsTrimmable(s[i]);
    }
  }

  datatype SubmitError = NameRequired | ImageRequired | InvalidSize

  /** The message shown for each rejection. */
  function ErrorMessage(e: SubmitError): string
  {
    match e
    case NameRequired => "器の名前を入力してください"
    case ImageRequired => "画像をアップロードしてください"
    case InvalidSize => "サイズは0より大きい値を入力してください"
  }

  /** The form's state when it is submitted; an image not yet uploaded is the empty string. */
  datatype Form = Form(
    name: string,
    widthCm: real,
    heightCm: real,
    originalImage: string,
    processedImage: string)

  /** What a submit does: set one error message, or call `addDish` once and navigate. */
  datatype SubmitEffect = ShowError(error: SubmitError) | AddAndNavigate(dish: NewDish, route: string)

  /** The page the form returns to after adding a dish. */
  const DishListRoute := "/dishes"

  /** `handleSubmit`: the name check first, then the images, then the size. */
  function HandleSubmit(f: Form): (e: SubmitEffect)
    ensures e == ShowError(NameRequired) <==> AllTrimmable(f.name)
    ensures e == ShowError(ImageRequired) <==>
      !AllTrimmable(f.name) && (f.originalImage == "" || f.processedImage == "")
    ensures e == ShowError(InvalidSize) <==>
      !AllTrimmable(f.name) && f.originalImage != "" && f.processedImage != ""
      && (f.widthCm <= 0.0 || f.heightCm <= 0.0)
    ensures e.AddAndNavigate? ==>
      e.dish == NewDish(f.name, f.widthCm, f.heightCm, f.originalImage, f.processedImage)
      && e.route == DishListRoute
  {
    TrimEmptyIffBlank(f.name);
    if Trim(f.name) == "" then ShowError(NameRequired)
    else if f.originalImage == "" || f.processedImage == "" then ShowError(ImageRequired)
    else if f.widthCm <= 0.0 || f.heightCm <= 0.0 then ShowError(InvalidSize)
    else AddAndNavigate(NewDish(f.name, f.widthCm, f.heightCm, f.originalImage, f.processedImage), DishListRoute)
  }

  /** Every dish that gets through the form has a non-blank name, both images and a positive size. */
  lemma AcceptedDishIsWellFormed(f: Form)
    requires HandleSubmit(f).AddAndNavigate?
    ensures var d := HandleSubmit(f).dish;
      && !AllTrimmable(d.name) && d.originalImage != "" && d.processedImage != ""
      && d.widthCm > 0.0 && d.heightCm > 0.0
  {
  }

  /** The store after a submit: unchanged on a rejection, one more dish (name untrimmed) on success. */
  function StoreAfterSubmit(s: DishStore.StoreState, f: Form, id: string, createdAt: int): (r: DishStore.StoreState)
    ensures HandleSubmit(f).ShowError? ==> r == s
    ensures HandleSubmit(f).AddAndNavigate? ==>
      |r.dishes| == |s.dishes| + 1 && r.dishes[..|s.dishes|] == s.dishes
      && r.dishes[|s.dishes|].name == f.name && r.dishes[|s.dishes|].id == id
      && r.dishes[|s.dishes|].widthCm > 0.0 && r.dishes[|s.dishes|].heightCm > 0.0
  {
    match HandleSubmit(f)
    case ShowError(_) => s
    case AddAndNavigate(dish, _) => DishStore.AddDish(s, dish, id, createdAt)
  }
}
