/** Parsed name templates and their rendering.

    The template module of the program is not part of this model; what is
    used from it is its `render`, which this module states as an
    assumption: a template is a sequence of literal segments and tag
    references, and rendering is all-or-nothing -- it fails as soon as one
    referenced tag has no value. */
module NameTemplates {
  import opened Wrappers
  import opened Tags

  datatype Segment = Literal(text: string) | TagRef(tag: Tag)

  type NameTemplate = seq<Segment>

  /** Every tag the template refers to has a value under `f`. */
  ghost predicate AllTagsResolve(t: NameTemplate, f: Tag -> Option<string>) {
    forall i :: 0 <= i < |t| && t[i].TagRef? ==> f(t[i].tag).Some?
  }

  /** Renders the segments left to right: literals are copied and tags are
      replaced by their value; the first tag without a value aborts the
      whole render. */
  function Render(t: NameTemplate, f: Tag -> Option<string>): (r: Option<string>)
    ensures r.Some? <==> AllTagsResolve(t, f)
  {
    if t == [] then Some("")
    else
      var head := match t[0]
        case Literal(s) => Some(s)
        case TagRef(tag) => f(tag);
      match head
      case None => None
      case Some(h) =>
        match Render(t[1..], f)
        case None => None
        case Some(rest) => Some(h + rest)
  }

  /** Rendering a concatenation renders both halves, and succeeds exactly
      when both halves do. */
  lemma {:induction false} RenderAppend(a: NameTemplate, b: NameTemplate, f: Tag -> Option<string>)
    ensures Render(a + b, f) ==
      if Render(a, f).Some? && Render(b, f).Some?
      then Some(Render(a, f).value + Render(b, f).value)
      else None
  {
    if a == [] {
      assert a + b == b;
      if Render(b, f).Some? {
        assert "" + Render(b, f).value == Render(b, f).value;
      }
    } else {
      assert (a + b)[0] == a[0];
      assert (a + b)[1..] == a[1..] + b;
      RenderAppend(a[1..], b, f);
      var ra, rb := Render(a[1..], f), Render(b, f);
      if ra.Some? && rb.Some? {
        var h := match a[0] case Literal(s) => s case TagRef(tag) => f(tag).GetOr("");
        assert h + (ra.value + rb.value) == (h + ra.value) + rb.value;
      }
    }
  }

  /** Rendering looks at `f` only for the tags the template refers to. */
  lemma {:induction false} RenderExt(t: NameTemplate, f: Tag -> Option<string>, g: Tag -> Option<string>)
    requires forall i :: 0 <= i < |t| && t[i].TagRef? ==> f(t[i].tag) == g(t[i].tag)
    ensures Render(t, f) == Render(t, g)
  {
    if t != [] {
      RenderExt(t[1..], f, g);
    }
  }

  /** A template made of one tag renders to that tag's value. */
  lemma RenderTag(tag: Tag, f: Tag -> Option<string>)
    ensures Render([TagRef(tag)], f) == f(tag)
  {
    assert [TagRef(tag)][1..] == [];
    if f(tag).Some? {
      assert f(tag).value + "" == f(tag).value;
    }
  }

  /** A template made of one literal renders to that literal. */
  lemma RenderLiteral(s: string, f: Tag -> Option<string>)
    ensures Render([Literal(s)], f) == Some(s)
  {
    assert [Literal(s)][1..] == [];
    assert s + "" == s;
  }
}
