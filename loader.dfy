/**
 * The script loader: which callbacks a loaded script yields, and the
 * import-renaming pass that points a Zipline script at pylivetrader's
 * own modules. Compiling and executing the script is outside the model:
 * the namespace it leaves behind is a given map.
 */
module Loader {
  import opened Wrappers
  import opened Strings

  /** A callable found in the script's namespace, or the do-nothing default. */
  datatype Callback = Noop | ScriptFunction(id: int)

  /** The callbacks the loader looks up; `analyze` is not among them. */
  const ApiMethods: seq<string> := ["initialize", "handle_data", "before_trading_start"]

  /**
   * The namespace after executing the script: the names `api` exports,
   * overwritten by whatever the script defines.
   */
  function Namespace(apiExports: map<string, Callback>, scriptDefs: map<string, Callback>): (ns: map<string, Callback>)
    ensures ns.Keys == apiExports.Keys + scriptDefs.Keys
    ensures forall n :: n in scriptDefs ==> ns[n] == scriptDefs[n]
    ensures forall n :: n in apiExports && n !in scriptDefs ==> ns[n] == apiExports[n]
  {
    apiExports + scriptDefs
  }

  /**
   * `get_functions`: exactly the three callback names, each bound to what
   * the namespace holds under it, or to `noop` when it holds nothing.
   */
  method GetFunctions(apiExports: map<string, Callback>, scriptDefs: map<string, Callback>)
    returns (out: map<string, Callback>)
    ensures out.Keys == {"initialize", "handle_data", "before_trading_start"}
    ensures forall m :: m in out ==>
      out[m] == (if m in scriptDefs then scriptDefs[m] else if m in apiExports then apiExports[m] else Noop)
  {
    var ns := Namespace(apiExports, scriptDefs);
    out := map[];
    for i := 0 to |ApiMethods|
      invariant out.Keys == set j | 0 <= j < i :: ApiMethods[j]
      invariant forall m :: m in out ==> out[m] == (if m in ns then ns[m] else Noop)
    {
      var m := ApiMethods[i];
      out := out[m := if m in ns then ns[m] else Noop];
    }
    assert out.Keys == set j | 0 <= j < 3 :: ApiMethods[j];
    assert ApiMethods[0] in out.Keys && ApiMethods[1] in out.Keys && ApiMethods[2] in out.Keys;
  }

  /** The dotted module names the import pass renames. */
  const ListToReplace: seq<string> := ["zipline.api", "zipline.errors"]

  /** `name.replace('zipline.', 'pylivetrader.')` */
  function ToPylivetrader(name: string): string
  {
    ReplaceAll(name, "zipline.", "pylivetrader.")
  }

  /** The two listed names become their pylivetrader counterparts. */
  lemma ListedNamesRenamed()
    ensures ToPylivetrader("zipline.api") == "pylivetrader.api"
    ensures ToPylivetrader("zipline.errors") == "pylivetrader.errors"
  {
    var z := "zipline.";
    assert "zipline.api" == z + "api" && "zipline.errors" == z + "errors";
    assert ReplaceAll("api", z, "pylivetrader.") == "api";
    assert ReplaceAll("errors", z, "pylivetrader.") == "errors";
  }

  /** One name of an `import` statement, with its optional `as` name. */
  datatype Alias = Alias(name: string, asname: Option<string>)

  /** How `visit_Import` rewrites one alias: only a listed name changes. */
  function RenameAlias(a: Alias): (b: Alias)
    ensures b.asname == a.asname
    ensures a.name !in ListToReplace ==> b == a
  {
    if a.name in ListToReplace then a.(name := ToPylivetrader(a.name)) else a
  }

  /** An `import a, b as c` node; its alias list is rewritten in place. */
  class ImportNode {
    var names: seq<Alias>

    constructor(names: seq<Alias>)
      ensures this.names == names
    {
      this.names := names;
    }
  }

  /** `visit_Import`: each listed alias renamed, in place, the others untouched. */
  method VisitImport(node: ImportNode)
    modifies node
    ensures |node.names| == |old(node.names)|
    ensures forall i :: 0 <= i < |node.names| ==> node.names[i] == RenameAlias(old(node.names)[i])
  {
    var i := 0;
    while i < |node.names|
      invariant 0 <= i <= |node.names| == |old(node.names)|
      invariant forall j :: 0 <= j < i ==> node.names[j] == RenameAlias(old(node.names)[j])
      invariant forall j :: i <= j < |node.names| ==> node.names[j] == old(node.names)[j]
    {
      if node.names[i].name in ListToReplace {
        node.names := node.names[i := node.names[i].(name := ToPylivetrader(node.names[i].name))];
      }
      i := i + 1;
    }
  }

  /** A `from module import names` node; `moduleName` is `None` for a relative import. */
  class ImportFromNode {
    var moduleName: Option<string>
    const names: seq<Alias>

    constructor(moduleName: Option<string>, names: seq<Alias>)
      ensures this.moduleName == moduleName && this.names == names
    {
      this.moduleName := moduleName;
      this.names := names;
    }
  }

  /** Whether every name of `from zipline import ...` has a pylivetrader counterpart. */
  predicate AllSupported(names: seq<Alias>)
  {
    forall i :: 0 <= i < |names| ==> names[i].name in ["api", "errors"]
  }

  /**
   * The module `visit_ImportFrom` leaves in the node: a listed module gets
   * its pylivetrader name, `zipline` becomes `pylivetrader` when every
   * imported name is supported, and anything else is kept.
   */
  function TranslatedModule(moduleName: Option<string>, names: seq<Alias>): (r: Option<string>)
    ensures r != moduleName ==> moduleName.Some? && (moduleName.value in ListToReplace || moduleName.value == "zipline")
    ensures r.Some? <==> moduleName.Some?
  {
    if moduleName.Some? && moduleName.value in ListToReplace then Some(ToPylivetrader(moduleName.value))
    else if moduleName == Some("zipline") && AllSupported(names) then Some("pylivetrader")
    else moduleName
  }

  /** The module changes only for the listed modules and for a fully supported `zipline` import. */
  lemma TranslatedModuleCases(moduleName: Option<string>, names: seq<Alias>)
    ensures moduleName == Some("zipline.api") ==> TranslatedModule(moduleName, names) == Some("pylivetrader.api")
    ensures moduleName == Some("zipline.errors") ==> TranslatedModule(moduleName, names) == Some("pylivetrader.errors")
    ensures moduleName == Some("zipline") ==>
      (TranslatedModule(moduleName, names) == Some("pylivetrader") <==> AllSupported(names))
    ensures moduleName == Some("zipline") && !AllSupported(names) ==> TranslatedModule(moduleName, names) == moduleName
    ensures moduleName.None? || (moduleName.value !in ListToReplace && moduleName.value != "zipline") ==>
      TranslatedModule(moduleName, names) == moduleName
  {
    ListedNamesRenamed();
  }

  /**
   * `visit_ImportFrom`: the module renamed in place; a `zipline` import
   * with an unsupported name is left alone at the first such name.
   */
  method VisitImportFrom(node: ImportFromNode)
    modifies node
    ensures node.moduleName == TranslatedModule(old(node.moduleName), node.names)
  {
    if node.moduleName.Some? && node.moduleName.value in ListToReplace {
      node.moduleName := Some(ToPylivetrader(node.moduleName.value));
      return;
    }
    if node.moduleName == Some("zipline") {
      for i := 0 to |node.names|
        invariant forall j :: 0 <= j < i ==> node.names[j].name in ["api", "errors"]
      {
        if node.names[i].name !in ["api", "errors"] {
          return;
        }
      }
      node.moduleName := Some("pylivetrader");
    }
  }
}
