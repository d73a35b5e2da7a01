/**
 * The documentation site's code-dialect selection: the `Root` theme wrapper
 * owns the selected dialect and hands it, with its setter, to every component
 * beneath it through a context.
 */
module DocsTheme {

  /** The dialect selected when a `Root` mounts. */
  const DEFAULT_DIALECT: string := "TS"

  /**
   * Reading a field of the context value outside any provider: the context has
   * no default, so the value is `undefined` and the field access throws.
   */
  datatype AccessError = UndefinedContext

  datatype Result<T> = Ok(value: T) | Err(error: AccessError)

  /**
   * The state a sequence of `setLang` calls leaves behind, starting from `current`:
   * each call replaces the state by its argument.
   */
  function LastWrite(current: string, writes: seq<string>): string
    decreases |writes|
  {
    if writes == [] then current else LastWrite(writes[0], writes[1..])
  }

  /** Last write wins: only the final argument matters, and no writes leave the state alone. */
  lemma {:induction false} LastWriteIsLast(current: string, writes: seq<string>)
    ensures writes == [] ==> LastWrite(current, writes) == current
    ensures writes != [] ==> LastWrite(current, writes) == writes[|writes| - 1]
    decreases |writes|
  {
    if |writes| > 1 {
      LastWriteIsLast(writes[0], writes[1..]);
    }
  }

  /** The state held by one mounted `Root`: its `lang` cell. */
  class Root {
    var lang: string
    /** Every value passed to `setLang` since this `Root` mounted, oldest first. */
    ghost var writes: seq<string>

    ghost predicate Valid()
      reads this
    {
      lang == LastWrite(DEFAULT_DIALECT, writes)
    }

    /** Mounting: `useState("TS")`. */
    constructor Mount()
      ensures Valid()
      ensures lang == DEFAULT_DIALECT && writes == []
    {
      lang := DEFAULT_DIALECT;
      writes := [];
    }

    /** `setLang(v)`: any value is accepted and replaces the current one. */
    method SetLang(v: string)
      modifies this
      ensures Valid()
      ensures lang == v && writes == old(writes) + [v]
    {
      LastWriteIsLast(DEFAULT_DIALECT, writes + [v]);
      lang := v;
      writes := writes + [v];
    }
  }

  /** What `useContext(DialectContext)` yields: the enclosing `Root`, or nothing outside one. */
  datatype Context = NoProvider | Provider(root: Root)
  {
    ghost function Frame(): set<object>
    {
      if Provider? then {root} else {}
    }
  }

  /** `useSelectedDialect()`: the enclosing `Root`'s `lang`; it fails outside a provider. */
  function UseSelectedDialect(ctx: Context): (r: Result<string>)
    reads ctx.Frame()
    ensures r.Err? <==> ctx.NoProvider?
    ensures ctx.Provider? ==> r == Ok(ctx.root.lang)
  {
    match ctx
    case NoProvider => Err(UndefinedContext)
    case Provider(root) => Ok(root.lang)
  }

  /**
   * `useSetDialect()`: the setter of the enclosing `Root`, returned as that `Root`
   * (its `SetLang` is the setter); it fails outside a provider. The source hands
   * back only the setter, so callers are to use nothing of the `Root` but `SetLang`:
   * they neither read its `lang` nor assign its fields.
   */
  function UseSetDialect(ctx: Context): (r: Result<Root>)
    ensures r.Err? <==> ctx.NoProvider?
    ensures ctx.Provider? ==> r == Ok(ctx.root)
  {
    match ctx
    case NoProvider => Err(UndefinedContext)
    case Provider(root) => Ok(root)
  }

  /**
   * Any component calls `useSetDialect()(v)` with the context it finds: outside a
   * provider that fails; inside one, every component under the same `Root` then reads
   * `v`, and the `Root` still holds its last write. All those components agree because
   * a `Root` provides a single context value, `Provider(root)`, as the one provider
   * value of `Root` does in the source.
   */
  method SetDialect(picker: Context, v: string) returns (r: Result<()>)
    modifies picker.Frame()
    ensures r.Err? <==> picker.NoProvider?
    ensures picker.Provider? ==> picker.root.Valid()
    ensures picker.Provider? ==>
              forall reader: Context :: reader.Provider? && reader.root == picker.root ==>
                                        UseSelectedDialect(reader) == Ok(v)
  {
    var setter := UseSetDialect(picker);
    if setter.Err? {
      return Err(setter.error);
    }
    setter.value.SetLang(v);
    r := Ok(());
  }

  /**
   * One component picks a dialect through `useSetDialect`; another component under
   * the same `Root` reads it through `useSelectedDialect`, before and after.
   */
  method PickThenRead(v: string) returns (before: string, after: string)
    ensures before == DEFAULT_DIALECT
    ensures after == v
  {
    var root := new Root.Mount();
    var picker, reader := Provider(root), Provider(root);
    before := UseSelectedDialect(reader).value;
    var setter := UseSetDialect(picker).value;
    setter.SetLang(v);
    after := UseSelectedDialect(reader).value;
  }

  /** Two separately mounted `Root`s: writes to one are never seen by the other. */
  method SeparateRoots(v: string, w: string) returns (first: string, second: string)
    ensures first == w
    ensures second == DEFAULT_DIALECT
  {
    var a := new Root.Mount();
    var b := new Root.Mount();
    a.SetLang(v);
    a.SetLang(w);
    first := UseSelectedDialect(Provider(a)).value;
    second := UseSelectedDialect(Provider(b)).value;
  }
}
