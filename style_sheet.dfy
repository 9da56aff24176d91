/**
 * The text `applyCSS` writes into its style node (index.js:128-141): the
 * stylesheet file read twice, then a `:root` block that declares one custom
 * property per key of `variables`, built by `reduce` over `Object.keys`.
 */
module StyleSheet {

  /** One own property of the `variables` object, in `Object.keys` order. */
  datatype Property = Property(name: string, value: string)

  /** `outputVar` (index.js:128-129). */
  function OutputVar(p: Property): (line: string)
    ensures |line| == |p.name| + |p.value| + 6
    ensures line[..2 + |p.name|] == "--" + p.name && line[2 + |p.name| .. 4 + |p.name|] == ": "
    ensures line[4 + |p.name| .. |line| - 2] == p.value && line[|line| - 2..] == ";\n"
  {
    "--" + p.name + ": " + p.value + ";\n"
  }

  /** `Object.keys(variables).reduce(reducer, stream)` (index.js:131-136): a left fold. */
  function Reduce(stream: string, props: seq<Property>): (r: string)
    decreases |props|
    ensures |r| >= |stream| && r[..|stream|] == stream
  {
    if props == [] then stream else Reduce(stream + OutputVar(props[0]), props[1..])
  }

  /** The declarations in order, as a right fold: the reference for `Reduce`. */
  function Declarations(props: seq<Property>): string
    decreases |props|
  {
    if props == [] then "" else OutputVar(props[0]) + Declarations(props[1..])
  }

  lemma {:induction false} DeclarationsAppend(a: seq<Property>, b: seq<Property>)
    ensures Declarations(a + b) == Declarations(a) + Declarations(b)
    decreases |a|
  {
    if a == [] {
      assert a + b == b;
    } else {
      assert (a + b)[1..] == a[1..] + b;
      DeclarationsAppend(a[1..], b);
    }
  }

  /** The fold appends every declaration, in key order, after the initial stream. */
  lemma {:induction false} ReduceIsDeclarations(stream: string, props: seq<Property>)
    ensures Reduce(stream, props) == stream + Declarations(props)
    decreases |props|
  {
    if props != [] {
      ReduceIsDeclarations(stream + OutputVar(props[0]), props[1..]);
    }
  }

  /** index.js:140-141: the file text twice, then the `:root` block. */
  function StyleText(file: string, variables: seq<Property>): (css: string)
    ensures css == file + file + "\n:root {" + Declarations(variables) + "}"
  {
    ReduceIsDeclarations("", variables);
    file + file + "\n:root {" + Reduce("", variables) + "}"
  }

  /** With no variables (the default `{}`), the block is empty. */
  lemma NoVariables(file: string)
    ensures StyleText(file, []) == file + file + "\n:root {}"
  {
  }

  lemma HeightLine()
    ensures OutputVar(Property("height", "2px")) == "--height: 2px;\n"
  {
  }

  /** The variables the component passes (index.js:21-23, 155). */
  lemma DefaultVariables(file: string)
    ensures StyleText(file, [Property("height", "2px")]) == file + file + "\n:root {--height: 2px;\n}"
  {
    var height := Property("height", "2px");
    HeightLine();
    assert [height][1..] == [];
    assert Declarations([height]) == OutputVar(height) + Declarations([]);
    var block := "\n:root {" + Declarations([height]) + "}";
    assert block == "\n:root {--height: 2px;\n}";
    assert StyleText(file, [height]) == file + file + block;
  }

  /** Each declaration sits at the offset given by the ones before it. */
  lemma {:induction false} DeclarationAt(props: seq<Property>, i: nat)
    requires i < |props|
    ensures var off := |Declarations(props[..i])|;
      off + |OutputVar(props[i])| <= |Declarations(props)| &&
      Declarations(props)[off .. off + |OutputVar(props[i])|] == OutputVar(props[i])
  {
    assert props == props[..i] + [props[i]] + props[i + 1..];
    DeclarationsAppend(props[..i] + [props[i]], props[i + 1..]);
    DeclarationsAppend(props[..i], [props[i]]);
    assert Declarations([props[i]]) == OutputVar(props[i]);
  }
}
