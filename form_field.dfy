/** The labelled form field used by the onboarding form. */
module FormField {
  import opened Wrappers

  predicate EndsWithStar(s: string) {
    |s| > 0 && s[|s| - 1] == '*'
  }

  /** The label as shown: a star is added unless the text already ends in one. */
  function LabelText(text: string): (r: string)
    ensures EndsWithStar(r)
    ensures EndsWithStar(text) ==> r == text
    ensures !EndsWithStar(text) ==> r == text + "*"
  {
    if EndsWithStar(text) then text else text + "*"
  }

  /** The rendered label is the given text with at most one star added. */
  lemma LabelAddsAtMostOneStar(text: string)
    ensures text <= LabelText(text)
    ensures |LabelText(text)| <= |text| + 1
    ensures LabelText(text)[..|text|] == text
  {
  }

  /** Marking a label as required twice is the same as once. */
  lemma LabelIdempotent(text: string)
    ensures LabelText(LabelText(text)) == LabelText(text)
  {
  }

  const RedBorder: string := "border-red-500"
  const GrayBorder: string := "border-gray-300"

  /** The border class chosen by the error: red exactly when there is an error. */
  function BorderClass(error: Option<string>): (c: string)
    ensures c == RedBorder <==> Truthy(error)
    ensures c == GrayBorder <==> !Truthy(error)
  {
    if Truthy(error) then RedBorder else GrayBorder
  }

  /** The field's props; `C` stands for whatever element is passed as children. */
  datatype Props<C> = Props(
    labelText: string,
    name: string,
    inputType: Option<string>,
    value: string,
    error: Option<string>,
    children: Option<C>)

  /** The control under the label: the supplied children, or a default input. */
  datatype Control<C> =
    | Supplied(element: C)
    | Input(id: string, name: string, inputType: string, value: string, border: string)

  datatype FieldView<C> = FieldView(
    htmlFor: string,
    shownLabel: string,
    control: Control<C>,
    errorMessage: Option<string>)

  /** What the component renders for the given props. */
  function Render<C>(p: Props<C>): (v: FieldView<C>)
    ensures v.htmlFor == p.name && EndsWithStar(v.shownLabel) && v.shownLabel == LabelText(p.labelText)
    ensures v.errorMessage.Some? <==> Truthy(p.error)
    ensures v.errorMessage.Some? ==> v.errorMessage == p.error
    ensures p.children.Some? ==> v.control == Supplied(p.children.value)
    ensures p.children.None? ==> v.control.Input? && v.control.name == p.name && v.control.id == p.name
                                 && v.control.value == p.value
    ensures p.children.None? && p.inputType.None? ==> v.control.inputType == "text"
    ensures p.children.None? && p.inputType.Some? ==> v.control.inputType == p.inputType.value
    ensures v.control.Input? ==> (v.control.border == RedBorder <==> Truthy(p.error))
  {
    var control := match p.children
      case Some(c) => Supplied(c)
      case None => Input(p.name, p.name, p.inputType.GetOr("text"), p.value, BorderClass(p.error));
    FieldView(p.name, LabelText(p.labelText), control, if Truthy(p.error) then p.error else None)
  }
}
