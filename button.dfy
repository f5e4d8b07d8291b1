/**
 * The design-system button: which element it renders, when it is disabled
 * and busy, and which children it shows while loading and while idle; the
 * icon-only wrapper and the button group.
 *
 * Visual variants and the class names they resolve to are not modelled; the
 * variant and size props are carried through as given.
 */
module Button {
  import opened JsSemantics

  /** Something a caller passes to render: text or another component. */
  datatype Node = Text(text: string) | Component(name: string)

  /** A rendered child of the button: its own spinner, or a caller's node. */
  datatype Child = Spinner | Content(node: Node)

  /** `Slot` merges the button's props into the caller's single child; otherwise a native `button`. */
  datatype Element = SlotElement | NativeButton

  datatype ButtonProps = ButtonProps(
    asChild: Option<bool>,
    isLoading: Option<bool>,
    loadingText: Option<string>,
    leftIcon: Option<Node>,
    rightIcon: Option<Node>,
    children: Option<Node>,
    disabled: Option<bool>,
    ariaBusy: Option<bool>,
    variant: Option<string>,
    size: Option<string>)

  datatype Rendered = Rendered(element: Element, disabled: bool, ariaBusy: bool,
                               variant: Option<string>, size: Option<string>, children: seq<Child>)

  /** `isLoading = false` when left out. */
  predicate Loading(p: ButtonProps)
  {
    Coalesce(p.isLoading, false)
  }

  /**
   * A node that may be `undefined` renders as nothing or as itself.  A text
   * node with the empty string counts as a shown child here, although React
   * renders it as nothing.
   */
  function Shown(n: Option<Node>): (c: seq<Child>)
    ensures |c| <= 1 && (c == [] <==> n.None?)
    ensures n.Some? ==> c == [Content(n.value)]
  {
    if n.Some? then [Content(n.value)] else []
  }

  /** The label: the loading text while loading with a non-empty loading text, the children otherwise. */
  function Label(p: ButtonProps): (c: seq<Child>)
    ensures Loading(p) && Truthy(p.loadingText) ==> c == [Content(Text(p.loadingText.value))]
    ensures !(Loading(p) && Truthy(p.loadingText)) ==> c == Shown(p.children)
    ensures |c| <= 1 && Spinner !in c
  {
    if Loading(p) && Truthy(p.loadingText) then [Content(Text(p.loadingText.value))] else Shown(p.children)
  }

  /**
   * The rendered button.  It is disabled iff the caller disabled it or it is
   * loading; `aria-busy` is the loading flag unless the caller set it; a
   * loading button shows its spinner and the label and no icon, an idle one
   * shows the icons around the label and no spinner.
   */
  function Render(p: ButtonProps): (r: Rendered)
    ensures r.element == SlotElement <==> p.asChild == Some(true)
    ensures r.disabled <==> p.disabled == Some(true) || Loading(p)
    ensures p.ariaBusy.None? ==> r.ariaBusy == Loading(p)
    ensures p.ariaBusy.Some? ==> r.ariaBusy == p.ariaBusy.value
    ensures Spinner in r.children <==> Loading(p)
    ensures Loading(p) ==> r.children == [Spinner] + Label(p)
    ensures !Loading(p) ==> r.children == Shown(p.leftIcon) + Shown(p.children) + Shown(p.rightIcon)
    ensures r.variant == p.variant && r.size == p.size
  {
    var loading := Loading(p);
    var element := if Coalesce(p.asChild, false) then SlotElement else NativeButton;
    var isDisabled := Coalesce(p.disabled, false) || loading;
    var spinner := if loading then [Spinner] else [];
    var left := if !loading then Shown(p.leftIcon) else [];
    var right := if !loading then Shown(p.rightIcon) else [];
    Rendered(element, isDisabled, Coalesce(p.ariaBusy, loading), p.variant, p.size,
             spinner + left + Label(p) + right)
  }

  /** `disabled={false}` cannot re-enable a loading button, and an idle button follows its `disabled` prop. */
  lemma LoadingDisables(p: ButtonProps)
    ensures Loading(p) ==> Render(p).disabled
    ensures !Loading(p) ==> (Render(p).disabled <==> p.disabled == Some(true))
    ensures Render(p.(isLoading := Some(true), disabled := Some(false))).disabled
  {
  }

  /** While loading an empty loading text does not hide the children: only a non-empty one replaces them. */
  lemma EmptyLoadingTextKeepsChildren(p: ButtonProps)
    requires Loading(p) && p.loadingText == Some("")
    ensures Render(p).children == [Spinner] + Shown(p.children)
  {
  }

  /** No caller node is lost while idle, and at most one (the label) shows while loading. */
  lemma ChildCounts(p: ButtonProps)
    ensures !Loading(p) ==>
              |Render(p).children| == |Shown(p.leftIcon)| + |Shown(p.children)| + |Shown(p.rightIcon)|
    ensures Loading(p) ==> 1 <= |Render(p).children| <= 2 && Render(p).children[0] == Spinner
  {
  }

  // IconButtonDS

  /** The icon button's props: the button's, less the icons and children, plus the icon. */
  datatype IconButtonProps = IconButtonProps(icon: Node, size: Option<string>, variant: Option<string>,
                                             asChild: Option<bool>, isLoading: Option<bool>, loadingText: Option<string>,
                                             disabled: Option<bool>, ariaBusy: Option<bool>)

  /** The props the icon button passes on: size `icon` and variant `ghost` unless given, the icon as the only child. */
  function IconButton(q: IconButtonProps): (p: ButtonProps)
    ensures p.size == Some(Coalesce(q.size, "icon")) && p.variant == Some(Coalesce(q.variant, "ghost"))
    ensures p.children == Some(q.icon) && p.leftIcon.None? && p.rightIcon.None?
    ensures p.asChild == q.asChild && p.isLoading == q.isLoading && p.loadingText == q.loadingText
    ensures p.disabled == q.disabled && p.ariaBusy == q.ariaBusy
  {
    ButtonProps(q.asChild, q.isLoading, q.loadingText, None, None, Some(q.icon), q.disabled, q.ariaBusy,
                Some(Coalesce(q.variant, "ghost")), Some(Coalesce(q.size, "icon")))
  }

  /** An idle icon button shows its icon and nothing else, at size `icon` in the `ghost` variant by default. */
  lemma IconButtonShowsIcon(q: IconButtonProps)
    requires q.isLoading != Some(true) && q.size.None? && q.variant.None?
    ensures Render(IconButton(q)).children == [Content(q.icon)]
    ensures Render(IconButton(q)).size == Some("icon") && Render(IconButton(q)).variant == Some("ghost")
  {
  }

  // ButtonGroup

  const AttachedClasses :=
    "[&>button]:rounded-none [&>button:first-child]:rounded-l-lg [&>button:last-child]:rounded-r-lg [&>button:not(:last-child)]:border-r-0"
  const SpacedClasses := "gap-2"

  /** The group's role and the class arguments it hands to the class merger, in order. */
  datatype Group = Group(role: string, classes: seq<string>)

  /**
   * `attached = false` when left out: an attached group squares the inner
   * corners of its buttons and drops the borders between them, any other
   * group spaces its buttons; the caller's class comes last.  The role is
   * `group` unless the caller passes one, which the later props spread
   * writes over it.
   */
  function ButtonGroup(attached: Option<bool>, className: Option<string>, role: Option<string>): (g: Group)
    ensures role.Some? ==> g.role == role.value
    ensures role.None? ==> g.role == "group"
    ensures |g.classes| >= 2 && g.classes[0] == "inline-flex"
    ensures g.classes[1] == AttachedClasses <==> attached == Some(true)
    ensures g.classes[1] == SpacedClasses <==> attached != Some(true)
    ensures g.classes[2..] == (if className.Some? then [className.value] else [])
  {
    Group(Coalesce(role, "group"), ["inline-flex", if Coalesce(attached, false) then AttachedClasses else SpacedClasses] +
                   (if className.Some? then [className.value] else []))
  }
}
