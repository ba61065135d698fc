/**
 `CreateSignatureForVertexLayout` of the DirectXTutorial2 lab: the HLSL
 source of a do-nothing vertex shader whose parameters match a vertex
 layout, written so that the layout can be given an input signature. The
 compiler (`D3DCompile`) is not part of this model and is a parameter.
 */
module Signature {

  import opened Optional

  /** The element formats the builder knows, and any other `DXGI_FORMAT`. */
  datatype Format = R32G32B32A32Float | R32G32B32Float | R32G32Float | R32Float | OtherFormat(code: int)

  /** A `D3D11_INPUT_ELEMENT_DESC`, reduced to the fields the builder reads. */
  datatype Element = Element(semanticName: string, semanticIndex: nat, format: Format)

  type Layout = seq<Element>

  /** The HLSL type for a format, or None for the formats the builder does not handle. */
  function TypeName(f: Format): (t: Option<string>)
    ensures t.None? <==> f.OtherFormat?
    ensures t.Some? ==> t.value in {"float4", "float3", "float2", "float"}
  {
    match f
    case R32G32B32A32Float => Some("float4")
    case R32G32B32Float => Some("float3")
    case R32G32Float => Some("float2")
    case R32Float => Some("float")
    case OtherFormat(_) => None
  }

  predicate Supported(e: Element)
  {
    TypeName(e.format).Some?
  }

  /**
   The character appended to the semantic name: the index is cast to 8 bits
   and added to '0', and the sum is stored in a `char`, keeping 8 bits again.
   */
  function IndexChar(semanticIndex: nat): (c: char)
    ensures c as int == (48 + semanticIndex % 256) % 256
  {
    ((48 + semanticIndex % 256) % 256) as char
  }

  /** Indices 0 to 9 give the digit; every other 8-bit index gives a character that is not a digit. */
  lemma IndexCharIsDigit(semanticIndex: nat)
    ensures semanticIndex < 10 ==> IndexChar(semanticIndex) == "0123456789"[semanticIndex]
    ensures semanticIndex % 256 >= 10 ==> !('0' <= IndexChar(semanticIndex) <= '9')
  {
  }

  /** One element's parameter: "<type> <Name><d> : <Name><d>". */
  function Fragment(e: Element): (s: string)
    requires Supported(e)
  {
    var semantic := e.semanticName + [IndexChar(e.semanticIndex)];
    TypeName(e.format).value + " " + semantic + " : " + semantic
  }

  const Prefix := "float4 main("
  const Suffix := ") : SV_Position {return 0;}"

  /** The parameters as the loop writes them: each element's fragment, in layout order, with nothing between them. */
  function Parameters(layout: Layout): (p: Option<string>)
    ensures p.None? <==> exists i :: 0 <= i < |layout| && !Supported(layout[i])
  {
    if |layout| == 0 then Some("")
    else
      var rest := Parameters(layout[1..]);
      if !Supported(layout[0]) || rest.None? then None
      else Some(Fragment(layout[0]) + rest.value)
  }

  /** The shader source the builder writes for a layout, or None (a null result) for an unsupported format. */
  function SignatureSource(layout: Layout): (s: Option<string>)
    ensures s.None? <==> exists i :: 0 <= i < |layout| && !Supported(layout[i])
    ensures s.Some? ==> s.value == Prefix + Parameters(layout).value + Suffix
  {
    match Parameters(layout)
    case None => None
    case Some(p) => Some(Prefix + p + Suffix)
  }

  /** Every source the builder returns starts with the prefix and ends with the suffix. */
  lemma Framed(layout: Layout)
    requires SignatureSource(layout).Some?
    ensures var s := SignatureSource(layout).value;
            |s| >= |Prefix| + |Suffix| && s[..|Prefix|] == Prefix && s[|s| - |Suffix|..] == Suffix
  {
    var s, p := SignatureSource(layout).value, Parameters(layout).value;
    assert s == Prefix + p + Suffix;
    assert s[..|Prefix|] == Prefix;
    assert s[|s| - |Suffix|..] == Suffix;
  }

  /** An empty layout gives a shader with no parameters. */
  lemma EmptyLayout()
    ensures SignatureSource([]) == Some(Prefix + Suffix)
  {
    assert Prefix + "" == Prefix;
  }

  /** A nonempty layout's parameters are its first fragment followed by the rest's parameters. */
  lemma UnfoldParameters(layout: Layout)
    requires |layout| > 0 && Parameters(layout).Some?
    ensures Parameters(layout[1..]).Some? && Supported(layout[0])
    ensures Parameters(layout).value == Fragment(layout[0]) + Parameters(layout[1..]).value
  {
  }

  lemma FoldParameters(layout: Layout)
    requires |layout| > 0 && Supported(layout[0]) && Parameters(layout[1..]).Some?
    ensures Parameters(layout) == Some(Fragment(layout[0]) + Parameters(layout[1..]).value)
  {
  }

  lemma DropFirst(a: Layout, b: Layout)
    requires |a| > 0
    ensures (a + b)[0] == a[0] && (a + b)[1..] == a[1..] + b
  {
  }

  lemma Reassociate(f: string, pa: string, pb: string)
    ensures f + (pa + pb) == (f + pa) + pb
  {
  }

  /** The parameters of two layouts laid end to end are the two parameter strings laid end to end. */
  lemma {:induction false} ParametersAppend(a: Layout, b: Layout)
    requires Parameters(a).Some? && Parameters(b).Some?
    ensures Parameters(a + b) == Some(Parameters(a).value + Parameters(b).value)
  {
    if |a| == 0 {
      assert a + b == b;
      assert "" + Parameters(b).value == Parameters(b).value;
    } else {
      UnfoldParameters(a);
      DropFirst(a, b);
      ParametersAppend(a[1..], b);
      FoldParameters(a + b);
      Reassociate(Fragment(a[0]), Parameters(a[1..]).value, Parameters(b).value);
    }
  }

  /** A single element contributes exactly its fragment. */
  lemma OneElement(e: Element)
    requires Supported(e)
    ensures Parameters([e]) == Some(Fragment(e))
  {
    assert [e][1..] == [];
    assert Fragment(e) + "" == Fragment(e);
  }

  /** One more turn of the builder's loop appends the next element's fragment. */
  lemma ParametersStep(layout: Layout, k: nat)
    requires k < |layout| && Parameters(layout[..k]).Some? && Supported(layout[k])
    ensures Parameters(layout[..k + 1]) == Some(Parameters(layout[..k]).value + Fragment(layout[k]))
  {
    assert layout[..k + 1] == layout[..k] + [layout[k]];
    OneElement(layout[k]);
    ParametersAppend(layout[..k], [layout[k]]);
  }

  /**
   `BuildSignatureSource` with the source's loop: append each element's
   type, then " ", the semantic, " : " and the semantic again; stop with a
   null result at the first unsupported format.
   */
  method BuildSignatureSource(layout: Layout) returns (r: Option<string>)
    ensures r == SignatureSource(layout)
  {
    var source := Prefix;
    var elt := 0;
    while elt < |layout|
      invariant 0 <= elt <= |layout|
      invariant Parameters(layout[..elt]).Some?
      invariant source == Prefix + Parameters(layout[..elt]).value
    {
      var typeName := TypeName(layout[elt].format);
      if typeName.None? {
        assert !Supported(layout[elt]);
        return None;
      }
      var semantic := layout[elt].semanticName + [IndexChar(layout[elt].semanticIndex)];
      var fragment := typeName.value + " " + semantic + " : " + semantic;
      assert fragment == Fragment(layout[elt]);
      ParametersStep(layout, elt);
      source := source + fragment;
      elt := elt + 1;
    }
    assert layout[..elt] == layout;
    source := source + Suffix;
    return Some(source);
  }

  /** A concrete two-element layout: a position and a colour. */
  const PositionColour: Layout := [Element("Position", 0, R32G32B32Float), Element("Colour", 0, R32G32B32A32Float)]

  /** The fragments of the two-element layout. */
  lemma PositionColourFragments()
    ensures Fragment(PositionColour[0]) == "float3 Position0 : Position0"
    ensures Fragment(PositionColour[1]) == "float4 Colour0 : Colour0"
  {
    assert IndexChar(0) == '0';
    assert "Position" + ['0'] == "Position0";
    assert "Colour" + ['0'] == "Colour0";
  }

  /**
   As written, the builder puts nothing between parameters, so a layout of
   two elements runs the first parameter's semantic into the second's type.
   */
  lemma NoSeparatorBetweenParameters()
    ensures SignatureSource(PositionColour)
         == Some("float4 main(" + "float3 Position0 : Position0" + "float4 Colour0 : Colour0" + ") : SV_Position {return 0;}")
  {
    PositionColourFragments();
    OneElement(PositionColour[0]);
    OneElement(PositionColour[1]);
    ParametersAppend([PositionColour[0]], [PositionColour[1]]);
    assert [PositionColour[0]] + [PositionColour[1]] == PositionColour;
    var p := "float3 Position0 : Position0" + "float4 Colour0 : Colour0";
    assert Parameters(PositionColour) == Some(p);
    assert Prefix + p == Prefix + "float3 Position0 : Position0" + "float4 Colour0 : Colour0";
  }

  /** Fragments joined with ", " between neighbours. */
  function Join(fragments: seq<string>): string
  {
    if |fragments| == 0 then ""
    else if |fragments| == 1 then fragments[0]
    else Join(fragments[..|fragments| - 1]) + ", " + fragments[|fragments| - 1]
  }

  /** Each element's fragment, or None for an unsupported format. */
  function Fragments(layout: Layout): (fs: Option<seq<string>>)
    ensures fs.None? <==> exists i :: 0 <= i < |layout| && !Supported(layout[i])
    ensures fs.Some? ==> |fs.value| == |layout| && forall i :: 0 <= i < |layout| ==> fs.value[i] == Fragment(layout[i])
  {
    if exists i :: 0 <= i < |layout| && !Supported(layout[i]) then None
    else Some(seq(|layout|, i requires 0 <= i < |layout| => Fragment(layout[i])))
  }

  /** The source with the parameters separated by ", ", as an HLSL parameter list needs. */
  function SeparatedSignatureSource(layout: Layout): (s: Option<string>)
    ensures s.None? <==> exists i :: 0 <= i < |layout| && !Supported(layout[i])
  {
    match Fragments(layout)
    case None => None
    case Some(fs) => Some(Prefix + Join(fs) + Suffix)
  }

  /** Between any two neighbouring parameters of the separated list there is exactly one ", ". */
  lemma {:induction false} JoinSplits(fs: seq<string>, i: nat)
    requires 0 < i < |fs|
    ensures Join(fs) == Join(fs[..i]) + ", " + Join(fs[i..])
    decreases |fs|
  {
    var n := |fs|;
    if i == n - 1 {
      assert fs[i..] == [fs[n - 1]];
    } else {
      var front := fs[..n - 1];
      JoinSplits(front, i);
      assert front[..i] == fs[..i];
      assert front[i..] == fs[i..n - 1];
      assert fs[i..][..|fs[i..]| - 1] == fs[i..n - 1];
      assert |fs[i..]| >= 2;
    }
  }

  /** The corrected builder writes the same source as the original for layouts of at most one element. */
  lemma SingleElementAgrees(layout: Layout)
    requires |layout| <= 1
    ensures SeparatedSignatureSource(layout) == SignatureSource(layout)
  {
    if |layout| == 1 && Supported(layout[0]) {
      assert layout == [layout[0]];
      OneElement(layout[0]);
    }
  }

  /** For the two-element layout the corrected builder writes a well-formed parameter list. */
  lemma SeparatedPositionColour()
    ensures SeparatedSignatureSource(PositionColour)
         == Some("float4 main(" + "float3 Position0 : Position0" + ", " + "float4 Colour0 : Colour0" + ") : SV_Position {return 0;}")
  {
    var fs := Fragments(PositionColour).value;
    PositionColourFragments();
    assert fs == ["float3 Position0 : Position0", "float4 Colour0 : Colour0"];
    assert fs[..1] == [fs[0]];
    var p := "float3 Position0 : Position0" + ", " + "float4 Colour0 : Colour0";
    assert Join(fs) == p;
    assert Prefix + p == Prefix + "float3 Position0 : Position0" + ", " + "float4 Colour0 : Colour0";
  }

  /**
   `CreateSignatureForVertexLayout` as written: the source the builder wrote
   is compiled only when every format is supported; otherwise the result is
   null. `compile` is `D3DCompile` for the "vs_5_0" target, None standing
   for a failure.
   */
  function CreateSignatureForVertexLayout<Blob>(layout: Layout, compile: string -> Option<Blob>): (r: Option<Blob>)
    ensures (exists i :: 0 <= i < |layout| && !Supported(layout[i])) ==> r.None?
    ensures SignatureSource(layout).Some? ==> r == compile(SignatureSource(layout).value)
  {
    match SignatureSource(layout)
    case None => None
    case Some(source) => compile(source)
  }

  /**
   The same entry point compiling the corrected, comma-separated source. For
   layouts of at most one element it is the function as written.
   */
  function CreateSignatureForVertexLayoutCorrected<Blob>(layout: Layout, compile: string -> Option<Blob>): (r: Option<Blob>)
    ensures (exists i :: 0 <= i < |layout| && !Supported(layout[i])) ==> r.None?
    ensures SeparatedSignatureSource(layout).Some? ==> r == compile(SeparatedSignatureSource(layout).value)
    ensures |layout| <= 1 ==> r == CreateSignatureForVertexLayout(layout, compile)
  {
    assert |layout| <= 1 ==> SeparatedSignatureSource(layout) == SignatureSource(layout) by {
      if |layout| <= 1 {
        SingleElementAgrees(layout);
      }
    }
    match SeparatedSignatureSource(layout)
    case None => None
    case Some(source) => compile(source)
  }
}
