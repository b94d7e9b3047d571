/**
 * The closed set of generator settings and the stable storage key of each one.
 */
module InnerBuilderOptions {

  /** The template handed to `String.format` when a constant is constructed. */
  const PropertyTemplate: string := "GenerateInnerBuilder.%s"

  /** The namespace every storage key starts with. */
  const PropertyPrefix: string := "GenerateInnerBuilder."

  /**
   * `String.format(template, arg)` for a template whose only conversion is `%s`:
   * the first `%s` is replaced by `arg`, everything else is copied.
   */
  function Format(template: string, arg: string): string
  {
    if |template| < 2 then template
    else if template[0] == '%' && template[1] == 's' then arg + template[2..]
    else [template[0]] + Format(template[1..], arg)
  }

  /** Formatting `p + "%s"` with a `p` that holds no `%` appends the argument to `p`. */
  lemma {:induction false} FormatPlainPrefix(p: string, arg: string)
    requires forall i :: 0 <= i < |p| ==> p[i] != '%'
    ensures Format(p + "%s", arg) == p + arg
  {
    if p == [] {
      assert p + "%s" == "%s";
    } else {
      assert (p + "%s")[1..] == p[1..] + "%s";
      FormatPlainPrefix(p[1..], arg);
      assert [p[0]] + (p[1..] + arg) == p + arg;
    }
  }

  datatype InnerBuilderOption =
    | FinalSetters
    | NewBuilderMethod
    | CopyConstructor
    | WithNotation
    | SetNotation
    | Jsr305Annotations
    | FindbugsAnnotation
    | WithJavadoc
    | MakeFieldsFinal
  {
    /** The setting name each constant passes to its constructor (the typo of SET_NOTATION is shipped). */
    function Suffix(): string
    {
      match this
      case FinalSetters => "finalSetters"
      case NewBuilderMethod => "newBuilderMethod"
      case CopyConstructor => "copyConstructor"
      case WithNotation => "withNotation"
      case SetNotation => "setNotatinon"
      case Jsr305Annotations => "useJSR305Annotations"
      case FindbugsAnnotation => "useFindbugsAnnotation"
      case WithJavadoc => "withJavadoc"
      case MakeFieldsFinal => "finalFields"
    }

    /**
     * `getProperty()`: the key fixed when the constant is constructed, namely the
     * namespace followed by the constant's setting name (see `PropertyIsFormatted`
     * for the `String.format` call that computes it).
     */
    function Property(): string
    {
      PropertyPrefix + Suffix()
    }

    /** `ordinal()`: the position of the constant in declaration order. */
    function Ordinal(): (n: nat)
      ensures n < 9
    {
      match this
      case FinalSetters => 0
      case NewBuilderMethod => 1
      case CopyConstructor => 2
      case WithNotation => 3
      case SetNotation => 4
      case Jsr305Annotations => 5
      case FindbugsAnnotation => 6
      case WithJavadoc => 7
      case MakeFieldsFinal => 8
    }
  }

  /** `values()`: all constants in declaration order, each exactly once. */
  function Values(): (r: seq<InnerBuilderOption>)
    ensures |r| == 9
    ensures forall i, j :: 0 <= i < j < |r| ==> r[i] != r[j]
    ensures forall i :: 0 <= i < |r| ==> r[i].Ordinal() == i
  {
    [FinalSetters, NewBuilderMethod, CopyConstructor, WithNotation, SetNotation,
     Jsr305Annotations, FindbugsAnnotation, WithJavadoc, MakeFieldsFinal]
  }

  /** The enum is closed: every constant is listed by `values()`, at its ordinal. */
  lemma ValuesComplete(o: InnerBuilderOption)
    ensures o in Values() && Values()[o.Ordinal()] == o
  {
    match o
    case FinalSetters =>
    case NewBuilderMethod =>
    case CopyConstructor =>
    case WithNotation =>
    case SetNotation =>
    case Jsr305Annotations =>
    case FindbugsAnnotation =>
    case WithJavadoc =>
    case MakeFieldsFinal =>
  }

  /** The key is what `String.format(PropertyTemplate, suffix)` yields in the constructor. */
  lemma PropertyIsFormatted(o: InnerBuilderOption)
    ensures o.Property() == Format(PropertyTemplate, o.Suffix())
    ensures |o.Property()| > |PropertyPrefix| && o.Property()[..|PropertyPrefix|] == PropertyPrefix
  {
    assert PropertyTemplate == PropertyPrefix + "%s";
    FormatPlainPrefix(PropertyPrefix, o.Suffix());
  }

  /** Recovers a constant from its setting name; the left inverse of `Suffix`. */
  function FromSuffix(s: string): (r: InnerBuilderOption)
    requires exists o: InnerBuilderOption :: o.Suffix() == s
    ensures r.Suffix() == s
  {
    if s == "finalSetters" then FinalSetters
    else if s == "newBuilderMethod" then NewBuilderMethod
    else if s == "copyConstructor" then CopyConstructor
    else if s == "withNotation" then WithNotation
    else if s == "setNotatinon" then SetNotation
    else if s == "useJSR305Annotations" then Jsr305Annotations
    else if s == "useFindbugsAnnotation" then FindbugsAnnotation
    else if s == "withJavadoc" then WithJavadoc
    else MakeFieldsFinal
  }

  /** Distinct constants have distinct setting names. */
  lemma SuffixInjective(a: InnerBuilderOption, b: InnerBuilderOption)
    ensures a.Suffix() == b.Suffix() ==> a == b
  {
    if a.Suffix() == b.Suffix() {
      assert FromSuffix(a.Suffix()) == a;
      assert FromSuffix(b.Suffix()) == b;
    }
  }

  /** The key mapping is injective: distinct constants never share a storage key. */
  lemma PropertyInjective(a: InnerBuilderOption, b: InnerBuilderOption)
    ensures a.Property() == b.Property() ==> a == b
  {
    if a.Property() == b.Property() {
      var n := |PropertyPrefix|;
      assert a.Suffix() == a.Property()[n..];
      assert b.Suffix() == b.Property()[n..];
      SuffixInjective(a, b);
    }
  }

  /** The nine constants yield nine distinct keys, in declaration order. */
  lemma ValuesHaveDistinctProperties()
    ensures forall i, j :: 0 <= i < j < |Values()| ==> Values()[i].Property() != Values()[j].Property()
  {
    forall i, j | 0 <= i < j < |Values()|
      ensures Values()[i].Property() != Values()[j].Property()
    {
      PropertyInjective(Values()[i], Values()[j]);
    }
  }

  /** The shipped key of SET_NOTATION keeps its misspelling. */
  lemma SetNotationProperty()
    ensures SetNotation.Property() == "GenerateInnerBuilder.setNotatinon"
  {
  }
}
