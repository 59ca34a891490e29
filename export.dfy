/**
 * The scene exporter: sorting the shapes into what the generated file must
 * define, and the text of that file, a component that rebuilds the scene.
 */
module Export {
  import opened Text
  import opened Scene

  /** One model configuration entry: the model file and its default scale. */
  datatype ModelConfig = ModelConfig(path: string, scale: int)

  /** Model name -> configuration. */
  type ModelConfigs = map<string, ModelConfig>

  /** Geometry name -> the source text of its `create...Geometry` function. */
  type GeometryDefinitions = map<string, string>

  /** `geometryDefinitions[t]` is truthy: present and not the empty string. */
  predicate Defines(definitions: GeometryDefinitions, t: string)
  {
    t in definitions && definitions[t] != ""
  }

  /** The `type` of a shape that came from a model file. */
  const ImportedModelType: string := "importedModel"

  // ---------------------------------------------------------------------------
  // Which component draws a shape

  datatype Kind = ImportedModel | ConfiguredModel | CustomGeometry | BasicShape

  /** The priority both the analysis and the shape generator follow: an imported
      model first, then a configured model, then a custom geometry, otherwise a
      built-in geometry. */
  function KindOf(shape: Shape, configs: ModelConfigs, definitions: GeometryDefinitions): Kind
  {
    if shape.shapeType == ImportedModelType then ImportedModel
    else if shape.shapeType in configs then ConfiguredModel
    else if Defines(definitions, shape.shapeType) then CustomGeometry
    else BasicShape
  }

  /** What the analysis records for a shape: the model format of an imported
      model, the type of any other shape. */
  function Recorded(shape: Shape): string
  {
    if shape.shapeType == ImportedModelType then shape.modelType else shape.shapeType
  }

  // ---------------------------------------------------------------------------
  // analyzeShapeUsage

  /** The four sets, each in insertion order as a JavaScript Set keeps it. */
  datatype Usage = Usage(
    geometries: seq<string>,
    models: seq<string>,
    importedModels: seq<string>,
    basicShapes: seq<string>)
  {
    /** The set that shapes of `kind` go to. */
    function SetOf(kind: Kind): seq<string>
    {
      match kind
      case ImportedModel => importedModels
      case ConfiguredModel => models
      case CustomGeometry => geometries
      case BasicShape => basicShapes
    }
  }

  predicate NoDuplicates(s: seq<string>)
  {
    forall i, j :: 0 <= i < j < |s| ==> s[i] != s[j]
  }

  /** `set.add(x)`: a value already present keeps its place. */
  function SetAdd(s: seq<string>, x: string): (r: seq<string>)
    ensures forall y :: y in r <==> y in s || y == x
    ensures NoDuplicates(s) ==> NoDuplicates(r)
    ensures s <= r
  {
    if x in s then s else s + [x]
  }

  /** One step of the loop: add what the shape records to the set of its kind. */
  function Record(u: Usage, shape: Shape, configs: ModelConfigs, definitions: GeometryDefinitions): Usage
  {
    match KindOf(shape, configs, definitions)
    case ImportedModel => u.(importedModels := SetAdd(u.importedModels, Recorded(shape)))
    case ConfiguredModel => u.(models := SetAdd(u.models, Recorded(shape)))
    case CustomGeometry => u.(geometries := SetAdd(u.geometries, Recorded(shape)))
    case BasicShape => u.(basicShapes := SetAdd(u.basicShapes, Recorded(shape)))
  }

  /** The four sets after the loop has seen `shapes`. */
  function Analysis(shapes: seq<Shape>, configs: ModelConfigs, definitions: GeometryDefinitions): Usage
  {
    if |shapes| == 0 then Usage([], [], [], [])
    else Record(Analysis(shapes[..|shapes| - 1], configs, definitions), shapes[|shapes| - 1], configs, definitions)
  }

  /** A value is in the set of `kind` exactly when some shape of that kind
      records it, and no set holds a value twice. */
  lemma {:induction false} AnalysisMembers(shapes: seq<Shape>, configs: ModelConfigs, definitions: GeometryDefinitions, kind: Kind)
    ensures forall t :: t in Analysis(shapes, configs, definitions).SetOf(kind) <==>
      exists s :: s in shapes && KindOf(s, configs, definitions) == kind && Recorded(s) == t
    ensures NoDuplicates(Analysis(shapes, configs, definitions).SetOf(kind))
  {
    if |shapes| > 0 {
      var init := shapes[..|shapes| - 1];
      var last := shapes[|shapes| - 1];
      assert shapes == init + [last];
      AnalysisMembers(init, configs, definitions, kind);
      RecordMembers(Analysis(init, configs, definitions), last, configs, definitions, kind);
      forall t ensures t in Analysis(shapes, configs, definitions).SetOf(kind) <==>
        exists s :: s in shapes && KindOf(s, configs, definitions) == kind && Recorded(s) == t
      {
        if t in Analysis(init, configs, definitions).SetOf(kind) {
          var s :| s in init && KindOf(s, configs, definitions) == kind && Recorded(s) == t;
          assert s in shapes;
        }
      }
    }
  }

  /** One Record step adds the shape's value to the set of its kind and to no
      other set. */
  lemma RecordMembers(u: Usage, shape: Shape, configs: ModelConfigs, definitions: GeometryDefinitions, kind: Kind)
    ensures forall t :: t in Record(u, shape, configs, definitions).SetOf(kind) <==>
      t in u.SetOf(kind) || (KindOf(shape, configs, definitions) == kind && t == Recorded(shape))
    ensures NoDuplicates(u.SetOf(kind)) ==> NoDuplicates(Record(u, shape, configs, definitions).SetOf(kind))
  {
  }

  /** analyzeShapeUsage: one pass over the shapes, adding each to one of four
      sets by KindOf. */
  method AnalyzeShapeUsage(shapes: seq<Shape>, configs: ModelConfigs, definitions: GeometryDefinitions)
    returns (u: Usage)
    ensures u == Analysis(shapes, configs, definitions)
    ensures forall kind, t :: t in u.SetOf(kind) <==>
      exists s :: s in shapes && KindOf(s, configs, definitions) == kind && Recorded(s) == t
    ensures forall kind :: NoDuplicates(u.SetOf(kind))
  {
    u := Usage([], [], [], []);
    var i := 0;
    while i < |shapes|
      invariant 0 <= i <= |shapes|
      invariant u == Analysis(shapes[..i], configs, definitions)
    {
      AnalysisStep(shapes, i, configs, definitions);
      ghost var next := Record(u, shapes[i], configs, definitions);
      var shape := shapes[i];
      if shape.shapeType == ImportedModelType {
        u := u.(importedModels := SetAdd(u.importedModels, shape.modelType));
      } else if shape.shapeType in configs {
        u := u.(models := SetAdd(u.models, shape.shapeType));
      } else if Defines(definitions, shape.shapeType) {
        u := u.(geometries := SetAdd(u.geometries, shape.shapeType));
      } else {
        u := u.(basicShapes := SetAdd(u.basicShapes, shape.shapeType));
      }
      assert u == next;
      i := i + 1;
    }
    assert shapes[..|shapes|] == shapes;
    AnalysisAllKinds(shapes, configs, definitions);
  }

  /** One more shape is one more Record step. */
  lemma AnalysisStep(shapes: seq<Shape>, i: nat, configs: ModelConfigs, definitions: GeometryDefinitions)
    requires i < |shapes|
    ensures Analysis(shapes[..i + 1], configs, definitions)
         == Record(Analysis(shapes[..i], configs, definitions), shapes[i], configs, definitions)
  {
    assert shapes[..i + 1][..i] == shapes[..i];
  }

  /** AnalysisMembers for the four kinds at once. */
  lemma AnalysisAllKinds(shapes: seq<Shape>, configs: ModelConfigs, definitions: GeometryDefinitions)
    ensures forall kind, t :: t in Analysis(shapes, configs, definitions).SetOf(kind) <==>
      exists s :: s in shapes && KindOf(s, configs, definitions) == kind && Recorded(s) == t
    ensures forall kind :: NoDuplicates(Analysis(shapes, configs, definitions).SetOf(kind))
  {
    forall kind ensures forall t :: t in Analysis(shapes, configs, definitions).SetOf(kind) <==>
      exists s :: s in shapes && KindOf(s, configs, definitions) == kind && Recorded(s) == t
    {
      AnalysisMembers(shapes, configs, definitions, kind);
    }
    forall kind ensures NoDuplicates(Analysis(shapes, configs, definitions).SetOf(kind)) {
      AnalysisMembers(shapes, configs, definitions, kind);
    }
  }

  /** The set of a kind has a value exactly when some shape is of that kind. */
  lemma AnalysisSetNonEmpty(shapes: seq<Shape>, configs: ModelConfigs, definitions: GeometryDefinitions, kind: Kind)
    ensures |Analysis(shapes, configs, definitions).SetOf(kind)| > 0 <==>
      exists s :: s in shapes && KindOf(s, configs, definitions) == kind
  {
    var members := Analysis(shapes, configs, definitions).SetOf(kind);
    AnalysisMembers(shapes, configs, definitions, kind);
    if exists s :: s in shapes && KindOf(s, configs, definitions) == kind {
      var s :| s in shapes && KindOf(s, configs, definitions) == kind;
      assert Recorded(s) in members;
    }
    if |members| > 0 {
      assert members[0] in members;
    }
  }

  /** No type name is in two of the model, geometry and basic sets, and none of
      them holds "importedModel". */
  lemma AnalysisSetsDisjoint(shapes: seq<Shape>, configs: ModelConfigs, definitions: GeometryDefinitions)
    ensures var u := Analysis(shapes, configs, definitions);
      && (forall t :: t in u.models ==> t !in u.geometries && t !in u.basicShapes && t in configs)
      && (forall t :: t in u.geometries ==> t !in u.basicShapes && t !in configs && Defines(definitions, t))
      && (forall t :: t in u.basicShapes ==> t !in configs && !Defines(definitions, t))
      && ImportedModelType !in u.models && ImportedModelType !in u.geometries && ImportedModelType !in u.basicShapes
  {
    AnalysisMembers(shapes, configs, definitions, ConfiguredModel);
    AnalysisMembers(shapes, configs, definitions, CustomGeometry);
    AnalysisMembers(shapes, configs, definitions, BasicShape);
  }

  // ---------------------------------------------------------------------------
  // Fixed text

  /** The imports every export starts with. */
  const BaseImports: string :=
    "import React, { Suspense, useRef, useEffect } from 'react';\n" +
    "  import { Canvas } from '@react-three/fiber';\n" +
    "  import { OrbitControls } from '@react-three/drei';\n" +
    "  import { useGLTF } from \"@react-three/drei\";\n" +
    "  import { useTexture } from \"@react-three/drei\";\n" +
    "  import { GLTFLoader } from \"three/examples/jsm/loaders/GLTFLoader\";\n" +
    "  import { useLoader } from \"@react-three/fiber\";\n" +
    "  import * as THREE from 'three';"
  /** The CustomGeometry component up to its switch cases. */
  const CustomGeometryHead: string :=
    "\n" +
    "  const CustomGeometry = ({ type, ...props }) => {\n" +
    "    const geometryRef = useRef();\n" +
    "    \n" +
    "    useEffect(() => {\n" +
    "      let geometry;\n" +
    "      switch(type) {\n" +
    "  "
  /** The CustomGeometry component after its switch cases. */
  const CustomGeometryTail: string :=
    "\n" +
    "      }\n" +
    "      if (geometryRef.current) {\n" +
    "        geometryRef.current.geometry = geometry;\n" +
    "      }\n" +
    "    }, [type]);\n" +
    "  \n" +
    "    return <mesh ref={geometryRef} {...props} />;\n" +
    "  };"
  /** The Model component, for shapes with a model configuration. */
  const ModelComponent: string :=
    "\n" +
    "    const Model = ({ modelPath, position, rotation, scale, defaultScale = 1 }) => {\n" +
    "      const gltf = useGLTF(modelPath);\n" +
    "      const scene = gltf.scene.clone();\n" +
    "      \n" +
    "      scene.traverse((node) => {\n" +
    "        if (node.isMesh) {\n" +
    "          node.material = node.material.clone();\n" +
    "          node.material.emissiveIntensity = 0;\n" +
    "          node.material.transparent = false;\n" +
    "          node.material.opacity = 1;\n" +
    "        }\n" +
    "      });\n" +
    "      \n" +
    "      scene.position.set(...position);\n" +
    "      scene.rotation.set(...rotation);\n" +
    "      scene.scale.set(scale * defaultScale, scale * defaultScale, scale * defaultScale);\n" +
    "      \n" +
    "      return <primitive object={scene} />;\n" +
    "    };"
  /** The ImportedModel component, for loaded model files. */
  const ImportedModelComponent: string :=
    "const ImportedModel = ({ shape }) => {\n" +
    "    try {\n" +
    "      switch (shape.modelType) {\n" +
    "        case \"glb\":\n" +
    "        case \"gltf\":\n" +
    "          const model = useLoader(GLTFLoader, shape.modelUrl);\n" +
    "          return <primitive object={model.scene} />;\n" +
    "        case \"obj\":\n" +
    "          const objModel = useLoader(OBJLoader, shape.modelUrl);\n" +
    "          return <primitive object={objModel} />;\n" +
    "        case \"stl\":\n" +
    "          const geometry = useLoader(STLLoader, shape.modelUrl);\n" +
    "          return (\n" +
    "            <mesh geometry={geometry}>\n" +
    "              <meshStandardMaterial\n" +
    "                color={shape.color}\n" +
    "                opacity={1}\n" +
    "              />\n" +
    "            </mesh>\n" +
    "          );\n" +
    "        default:\n" +
    "          return null;\n" +
    "      }\n" +
    "    } catch (error) {\n" +
    "      console.error(\"Error loading model:\", error);\n" +
    "      return null;\n" +
    "    }\n" +
    "  };"
  /** The scene component from its declaration to the background style. */
  const SceneOpen: string :=
    "\n" +
    "    \n" +
    "  const CompiledScene = () => {\n" +
    "    return (\n" +
    "      <div className=\"absolute inset-0\" "
  /** From the end of the wrapper tag to the environment element. */
  const SceneCanvas: string :=
    ">\n" +
    "        <Canvas camera={{ position: [5, 5, 5], fov: 50 }}>\n" +
    "          <ambientLight intensity={0.5} />\n" +
    "          <directionalLight position={[5, 5, 5]} intensity={0.8} />\n" +
    "          <pointLight position={[-5, 5, -5]} intensity={0.5} />\n" +
    "          <OrbitControls makeDefault />\n" +
    "          <Suspense fallback={null}>\n" +
    "            "
  /** Everything after the shape elements. */
  const SceneClose: string :=
    "\n" +
    "          </Suspense>\n" +
    "        </Canvas>\n" +
    "      </div>\n" +
    "    );\n" +
    "  };\n" +
    "  \n" +
    "  export default CompiledScene;"

  // ---------------------------------------------------------------------------
  // generateImports

  /** The name the environment import brings in: Stars, Sky or Cloud for those
      environments, Environment for any other. */
  function EnvironmentImportName(environment: string): (name: string)
    ensures name in {"Stars", "Sky", "Cloud", "Environment"}
    ensures environment == "stars" ==> name == "Stars"
    ensures environment == "sky" ==> name == "Sky"
    ensures environment == "clouds" ==> name == "Cloud"
    ensures environment !in {"stars", "sky", "clouds"} ==> name == "Environment"
  {
    if environment == "stars" then "Stars"
    else if environment == "sky" then "Sky"
    else if environment == "clouds" then "Cloud"
    else "Environment"
  }

  /** The import line for the environment; none for "none". */
  function EnvironmentImport(environment: string): (line: string)
    ensures environment == "none" <==> line == ""
  {
    if environment != "none" then "import { " + EnvironmentImportName(environment) + " } from '@react-three/drei';"
    else ""
  }

  /** generateImports: the fixed imports, then the environment import. The
      geometry and basic-shape sets it is given are not used. */
  function GenerateImports(usedGeometries: seq<string>, basicShapes: seq<string>, environment: string): (r: string)
    ensures BaseImports <= r
    ensures environment == "none" ==> r == BaseImports + "\n  "
  {
    BaseImports + "\n  " + EnvironmentImport(environment)
  }

  // ---------------------------------------------------------------------------
  // generateGeometryFunctions and generateCustomGeometryComponent

  /** `types.map(type => geometryDefinitions[type])`; a missing definition is
      `undefined`, which `join` writes as nothing. */
  function DefinitionTexts(types: seq<string>, definitions: GeometryDefinitions): (r: seq<string>)
    ensures |r| == |types|
    ensures forall i :: 0 <= i < |types| && types[i] in definitions ==> r[i] == definitions[types[i]]
    ensures forall i :: 0 <= i < |types| && types[i] !in definitions ==> r[i] == ""
  {
    if |types| == 0 then []
    else [if types[0] in definitions then definitions[types[0]] else ""] + DefinitionTexts(types[1..], definitions)
  }

  /** generateGeometryFunctions: the definitions of the used geometries,
      separated by blank lines. */
  function GenerateGeometryFunctions(usedGeometries: seq<string>, definitions: GeometryDefinitions): (r: string)
    ensures forall k :: 0 <= k < |usedGeometries| && usedGeometries[k] in definitions ==>
      IsInfix(definitions[usedGeometries[k]], r)
  {
    JoinHasEveryPart(DefinitionTexts(usedGeometries, definitions), "\n\n");
    Join(DefinitionTexts(usedGeometries, definitions), "\n\n")
  }

  /** The switch case that builds geometry `geometryType` with
      `create<Type>Geometry()`, the type's first letter in upper case. */
  function SwitchCase(geometryType: string): string
  {
    "      case '" + geometryType + "':\n          geometry = create" + Capitalize(geometryType)
      + "Geometry();\n          break;"
  }

  /** One switch case per type, in the same order. */
  function SwitchCases(types: seq<string>): (r: seq<string>)
    ensures |r| == |types|
    ensures forall i :: 0 <= i < |types| ==> r[i] == SwitchCase(types[i])
  {
    if |types| == 0 then [] else [SwitchCase(types[0])] + SwitchCases(types[1..])
  }

  /** generateCustomGeometryComponent: nothing without custom geometries,
      otherwise the component with one switch case per used geometry. */
  function GenerateCustomGeometryComponent(usedGeometries: seq<string>): (r: string)
    ensures r == "" <==> |usedGeometries| == 0
  {
    if |usedGeometries| == 0 then ""
    else CustomGeometryHead + Join(SwitchCases(usedGeometries), "\n") + CustomGeometryTail
  }

  /** Each used geometry has its case in the component. */
  lemma CustomGeometryHasCase(usedGeometries: seq<string>, k: nat)
    requires k < |usedGeometries|
    ensures IsInfix(SwitchCase(usedGeometries[k]), GenerateCustomGeometryComponent(usedGeometries))
  {
    var cases := SwitchCases(usedGeometries);
    InfixOfJoin(cases, "\n", k);
    InfixWiden(cases[k], Join(cases, "\n"), CustomGeometryHead, CustomGeometryTail);
  }

  // ---------------------------------------------------------------------------
  // generateModelComponent, generateImportedModelComponent

  /** generateModelComponent: the Model component, unless no configured model
      is used. */
  function GenerateModelComponent(usedModels: seq<string>): (r: string)
    ensures r == "" <==> |usedModels| == 0
  {
    if |usedModels| == 0 then "" else ModelComponent
  }

  /** generateImportedModelComponent: the ImportedModel component, unless no
      model file is used. */
  function GenerateImportedModelComponent(usedImportedModels: seq<string>): (r: string)
    ensures r == "" <==> |usedImportedModels| == 0
  {
    if |usedImportedModels| == 0 then "" else ImportedModelComponent
  }

  // ---------------------------------------------------------------------------
  // generateEnvironmentComponent

  /** A self-closing element `<Name attributes />` of a library component. */
  function LibraryElement(name: string, attributes: string): (r: string)
    ensures "<" + name + " " <= r
    ensures r != ""
  {
    PrefixOfAppend("<" + name + " ", "<" + name + " ", attributes);
    PrefixOfAppend("<" + name + " ", "<" + name + " " + attributes, " />");
    "<" + name + " " + attributes + " />"
  }

  /** generateEnvironmentComponent: a fixed element for each known environment,
      the background colour for "color", nothing for any other value. */
  function GenerateEnvironmentComponent(environment: string, backgroundColor: string): (r: string)
    ensures r == "" <==> environment !in {"stars", "sky", "clouds", "sunset", "color"}
    ensures environment == "color" ==> IsInfix(backgroundColor, r)
  {
    if environment == "stars" then
      LibraryElement("Stars", "count={5000} depth={50} factor={4} saturation={0} fade speed={1}")
    else if environment == "sky" then LibraryElement("Sky", "sunPosition={[0, 1, 0]}")
    else if environment == "clouds" then
      LibraryElement("Cloud", "position={[0, 15, 0]} opacity={0.7} speed={0.4} width={10} depth={1.5} segments={20}")
    else if environment == "sunset" then LibraryElement("Environment", "preset=\"sunset\" background blur={0.4}")
    else if environment == "color" then
      InfixBetween("<color attach=\"background\" args={['", backgroundColor, "']} />");
      "<color attach=\"background\" args={['" + backgroundColor + "']} />"
    else ""
  }

  /** Every library element the environment uses is the one its import brings
      in; the "color" element is built in and needs none. */
  lemma EnvironmentElementIsImported(environment: string, backgroundColor: string)
    requires environment in {"stars", "sky", "clouds", "sunset"}
    ensures EnvironmentImport(environment) != ""
    ensures "<" + EnvironmentImportName(environment) + " " <= GenerateEnvironmentComponent(environment, backgroundColor)
  {
    var name := EnvironmentImportName(environment);
    if environment == "stars" {
      assert GenerateEnvironmentComponent(environment, backgroundColor)
          == LibraryElement(name, "count={5000} depth={50} factor={4} saturation={0} fade speed={1}");
    } else if environment == "sky" {
      assert GenerateEnvironmentComponent(environment, backgroundColor) == LibraryElement(name, "sunPosition={[0, 1, 0]}");
    } else if environment == "clouds" {
      assert GenerateEnvironmentComponent(environment, backgroundColor)
          == LibraryElement(name, "position={[0, 15, 0]} opacity={0.7} speed={0.4} width={10} depth={1.5} segments={20}");
    } else {
      assert GenerateEnvironmentComponent(environment, backgroundColor)
          == LibraryElement(name, "preset=\"sunset\" background blur={0.4}");
    }
  }

  // ---------------------------------------------------------------------------
  // generateShapeJSX

  /** `[${v.join(", ")}]`. */
  function VectorText(v: seq<int>): string
  {
    "[" + Join(NumberTexts(v), ", ") + "]"
  }

  function NumberTexts(v: seq<int>): (r: seq<string>)
    ensures |r| == |v|
    ensures forall i :: 0 <= i < |v| ==> r[i] == IntToString(v[i])
  {
    if |v| == 0 then [] else [IntToString(v[0])] + NumberTexts(v[1..])
  }

  /** A three-component vector is written `[x, y, z]`. */
  lemma VectorTextOfTriple(x: int, y: int, z: int)
    ensures VectorText([x, y, z]) == "[" + IntToString(x) + ", " + IntToString(y) + ", " + IntToString(z) + "]"
  {
    var texts := NumberTexts([x, y, z]);
    assert texts == [IntToString(x), IntToString(y), IntToString(z)];
    assert texts[1..][1..] == [IntToString(z)];
    assert Join(texts[1..], ", ") == IntToString(y) + ", " + IntToString(z);
  }

  /** `[${scale}, ${scale}, ${scale}]`: a scalar scale as a uniform triple. */
  function ScaleTriple(scale: int): string
  {
    "[" + IntToString(scale) + ", " + IntToString(scale) + ", " + IntToString(scale) + "]"
  }

  /** The material map: a texture when the shape has a texture path. */
  function TextureText(texturePath: string): string
  {
    if texturePath != "" then "useTexture('" + texturePath + "')" else "null"
  }

  /** `scale={[s, s, s]}`: how a custom geometry or a built-in mesh is sized. */
  function ScaleAttribute(scale: int): string
  {
    "scale={" + ScaleTriple(scale) + "}"
  }

  /** The element of a shape that came from a model file; `serialize` stands
      for JSON.stringify. */
  function ImportedModelElement(shape: Shape, serialize: Shape -> string): (r: string)
    ensures "<ImportedModel " <= r
  {
    "<ImportedModel " + ("shape={" + serialize(shape) + "} />")
  }

  /** `position={[x, y, z]}`. */
  function PositionAttribute(position: seq<int>): string
  {
    "position={" + VectorText(position) + "}"
  }

  /** `rotation={[x, y, z]}`. */
  function RotationAttribute(rotation: seq<int>): string
  {
    "rotation={" + VectorText(rotation) + "}"
  }

  /** The element of a configured model: its file, placement and both scales. */
  function ModelElement(shape: Shape, config: ModelConfig): (r: string)
    ensures "<Model " <= r
    ensures IsInfix("modelPath=\"" + config.path + "\"", r)
    ensures IsInfix(PositionAttribute(shape.position), r)
    ensures IsInfix(RotationAttribute(shape.rotation), r)
  {
    var parts := ["<Model ", "modelPath=\"" + config.path + "\"", " ", PositionAttribute(shape.position),
      " ", RotationAttribute(shape.rotation),
      " scale={" + IntToString(shape.scale) + "} defaultScale={" + IntToString(config.scale) + "} />"];
    ConcatStartsWith(parts);
    InfixOfJoin(parts, "", 1);
    InfixOfJoin(parts, "", 3);
    InfixOfJoin(parts, "", 5);
    Concat(parts)
  }

  /** The element of a custom geometry: its type, placement, size and colour. */
  function CustomGeometryElement(shape: Shape): (r: string)
    ensures "<CustomGeometry\n" <= r
    ensures IsInfix(PositionAttribute(shape.position), r)
    ensures IsInfix(RotationAttribute(shape.rotation), r)
    ensures IsInfix(ScaleAttribute(shape.scale), r)
  {
    var parts := ["<CustomGeometry\n", "                type=\"" + shape.shapeType + "\"\n                ",
      PositionAttribute(shape.position), "\n                ",
      RotationAttribute(shape.rotation), "\n                ",
      ScaleAttribute(shape.scale),
      ">\n                <meshStandardMaterial color=\"" + shape.color + "\" />\n              </CustomGeometry>"];
    ConcatStartsWith(parts);
    InfixOfJoin(parts, "", 2);
    InfixOfJoin(parts, "", 4);
    InfixOfJoin(parts, "", 6);
    Concat(parts)
  }

  /** The element of a built-in geometry: a mesh with `<TypeGeometry />`, the
      colour and the texture, if any. */
  function MeshElement(shape: Shape): (r: string)
    ensures "<mesh " <= r
    ensures IsInfix(PositionAttribute(shape.position), r)
    ensures IsInfix(RotationAttribute(shape.rotation), r)
    ensures IsInfix(ScaleAttribute(shape.scale), r)
    ensures IsInfix("<" + shape.shapeType + "Geometry />", r)
  {
    var parts := ["<mesh ", PositionAttribute(shape.position), " ", RotationAttribute(shape.rotation), " ",
      ScaleAttribute(shape.scale), ">\n              ", "<" + shape.shapeType + "Geometry />",
      "\n              <meshStandardMaterial color=\"" + shape.color
        + "\" map={" + TextureText(shape.texturePath) + "} />\n            </mesh>"];
    ConcatStartsWith(parts);
    InfixOfJoin(parts, "", 1);
    InfixOfJoin(parts, "", 3);
    InfixOfJoin(parts, "", 5);
    InfixOfJoin(parts, "", 7);
    Concat(parts)
  }

  /** generateShapeJSX: the element that draws one shape, chosen by KindOf.
      `serialize` stands for JSON.stringify. */
  function GenerateShapeJSX(shape: Shape, configs: ModelConfigs, definitions: GeometryDefinitions,
                            serialize: Shape -> string): (r: string)
    ensures KindOf(shape, configs, definitions) == ImportedModel ==> "<ImportedModel " <= r
    ensures KindOf(shape, configs, definitions) == ConfiguredModel ==> "<Model " <= r
    ensures KindOf(shape, configs, definitions) == CustomGeometry ==> "<CustomGeometry\n" <= r
    ensures KindOf(shape, configs, definitions) == BasicShape ==> "<mesh " <= r
    ensures KindOf(shape, configs, definitions) in {CustomGeometry, BasicShape} ==>
      IsInfix(ScaleAttribute(shape.scale), r)
    ensures KindOf(shape, configs, definitions) != ImportedModel ==>
      IsInfix(PositionAttribute(shape.position), r) && IsInfix(RotationAttribute(shape.rotation), r)
  {
    var t := shape.shapeType;
    if t == ImportedModelType then ImportedModelElement(shape, serialize)
    else if t in configs then ModelElement(shape, configs[t])
    else if Defines(definitions, t) then CustomGeometryElement(shape)
    else MeshElement(shape)
  }

  // ---------------------------------------------------------------------------
  // The text of exportScene

  /** What separates two shape elements in the scene. */
  const ShapeSeparator: string := "\n            "

  /** `shapes.map(generateShapeJSX)`. */
  function ShapeFragments(shapes: seq<Shape>, configs: ModelConfigs, definitions: GeometryDefinitions,
                          serialize: Shape -> string): (r: seq<string>)
    ensures |r| == |shapes|
    ensures forall i :: 0 <= i < |shapes| ==> r[i] == GenerateShapeJSX(shapes[i], configs, definitions, serialize)
  {
    if |shapes| == 0 then []
    else [GenerateShapeJSX(shapes[0], configs, definitions, serialize)] + ShapeFragments(shapes[1..], configs, definitions, serialize)
  }

  /** The shape elements of the scene, in the order of `shapes`. */
  function SceneBody(shapes: seq<Shape>, configs: ModelConfigs, definitions: GeometryDefinitions,
                     serialize: Shape -> string): string
  {
    Join(ShapeFragments(shapes, configs, definitions, serialize), ShapeSeparator)
  }

  /** One more shape adds its element at the end of the body, after a separator:
      one element per shape, in the order of the shapes. */
  lemma SceneBodySnoc(shapes: seq<Shape>, shape: Shape, configs: ModelConfigs, definitions: GeometryDefinitions,
                      serialize: Shape -> string)
    requires |shapes| > 0
    ensures SceneBody(shapes + [shape], configs, definitions, serialize)
         == SceneBody(shapes, configs, definitions, serialize) + ShapeSeparator
            + GenerateShapeJSX(shape, configs, definitions, serialize)
  {
    var fragments := ShapeFragments(shapes, configs, definitions, serialize);
    var last := GenerateShapeJSX(shape, configs, definitions, serialize);
    assert ShapeFragments(shapes + [shape], configs, definitions, serialize) == fragments + [last];
    JoinSnoc(fragments, ShapeSeparator, last);
  }

  /** The `style` attribute of the scene's wrapper: a background for "color". */
  function BackgroundStyle(environment: string, backgroundColor: string): string
  {
    if environment == "color" then "style={{ background: '" + backgroundColor + "' }}" else ""
  }

  /** Everything of the exported file before the shape elements. */
  function ScenePrelude(shapes: seq<Shape>, environment: string, backgroundColor: string,
                        configs: ModelConfigs, definitions: GeometryDefinitions): string
  {
    var u := Analysis(shapes, configs, definitions);
    GenerateImports(u.geometries, u.basicShapes, environment)
      + ("\n    \n    " + GenerateGeometryFunctions(u.geometries, definitions)
      + "\n    " + GenerateCustomGeometryComponent(u.geometries)
      + "\n    " + GenerateModelComponent(u.models)
      + "\n    " + GenerateImportedModelComponent(u.importedModels)
      + SceneOpen + BackgroundStyle(environment, backgroundColor)
      + SceneCanvas + GenerateEnvironmentComponent(environment, backgroundColor)
      + ShapeSeparator)
  }

  /** exportScene, up to the download: the source text of a component that
      rebuilds the scene. */
  function ExportScene(shapes: seq<Shape>, environment: string, backgroundColor: string,
                       configs: ModelConfigs, definitions: GeometryDefinitions, serialize: Shape -> string): (r: string)
    ensures BaseImports <= r
    ensures IsInfix(SceneBody(shapes, configs, definitions, serialize), r)
    ensures |r| >= |SceneClose| && r[|r| - |SceneClose|..] == SceneClose
  {
    var prelude := ScenePrelude(shapes, environment, backgroundColor, configs, definitions);
    var body := SceneBody(shapes, configs, definitions, serialize);
    ScenePreludeStartsWithImports(shapes, environment, backgroundColor, configs, definitions);
    PrefixOfAppend(BaseImports, prelude, body);
    PrefixOfAppend(BaseImports, prelude + body, SceneClose);
    InfixBetween(prelude, body, SceneClose);
    prelude + body + SceneClose
  }

  /** The prelude starts with the fixed imports. */
  lemma ScenePreludeStartsWithImports(shapes: seq<Shape>, environment: string, backgroundColor: string,
                                      configs: ModelConfigs, definitions: GeometryDefinitions)
    ensures BaseImports <= ScenePrelude(shapes, environment, backgroundColor, configs, definitions)
  {
    var u := Analysis(shapes, configs, definitions);
    var imports := GenerateImports(u.geometries, u.basicShapes, environment);
    PrefixOfAppend(BaseImports, imports, ScenePrelude(shapes, environment, backgroundColor, configs, definitions)[|imports|..]);
    assert ScenePrelude(shapes, environment, backgroundColor, configs, definitions)
        == imports + ScenePrelude(shapes, environment, backgroundColor, configs, definitions)[|imports|..];
  }

  /** Every shape's element is in the exported file. */
  lemma ExportHasEveryShape(shapes: seq<Shape>, environment: string, backgroundColor: string,
                            configs: ModelConfigs, definitions: GeometryDefinitions, serialize: Shape -> string, k: nat)
    requires k < |shapes|
    ensures IsInfix(GenerateShapeJSX(shapes[k], configs, definitions, serialize),
                    ExportScene(shapes, environment, backgroundColor, configs, definitions, serialize))
  {
    var fragments := ShapeFragments(shapes, configs, definitions, serialize);
    InfixOfJoin(fragments, ShapeSeparator, k);
    InfixWiden(fragments[k], SceneBody(shapes, configs, definitions, serialize),
               ScenePrelude(shapes, environment, backgroundColor, configs, definitions), SceneClose);
  }

  /** The exported file defines the Model component when, and only when, some
      shape is a configured model. */
  lemma ExportDefinesModelWhenUsed(shapes: seq<Shape>, configs: ModelConfigs, definitions: GeometryDefinitions)
    ensures GenerateModelComponent(Analysis(shapes, configs, definitions).models) != "" <==>
      exists s :: s in shapes && KindOf(s, configs, definitions) == ConfiguredModel
  {
    AnalysisSetNonEmpty(shapes, configs, definitions, ConfiguredModel);
  }

  /** The exported file defines the ImportedModel component when, and only
      when, some shape came from a model file. */
  lemma ExportDefinesImportedModelWhenUsed(shapes: seq<Shape>, configs: ModelConfigs, definitions: GeometryDefinitions)
    ensures GenerateImportedModelComponent(Analysis(shapes, configs, definitions).importedModels) != "" <==>
      exists s :: s in shapes && KindOf(s, configs, definitions) == ImportedModel
  {
    AnalysisSetNonEmpty(shapes, configs, definitions, ImportedModel);
  }

  /** The exported file defines the CustomGeometry component when, and only
      when, some shape is a custom geometry. */
  lemma ExportDefinesCustomGeometryWhenUsed(shapes: seq<Shape>, configs: ModelConfigs, definitions: GeometryDefinitions)
    ensures GenerateCustomGeometryComponent(Analysis(shapes, configs, definitions).geometries) != "" <==>
      exists s :: s in shapes && KindOf(s, configs, definitions) == CustomGeometry
  {
    AnalysisSetNonEmpty(shapes, configs, definitions, CustomGeometry);
  }

  /** Every custom geometry a shape uses has its switch case in the
      CustomGeometry component and its definition among the geometry
      functions. */
  lemma ExportDefinesUsedGeometries(shapes: seq<Shape>, configs: ModelConfigs, definitions: GeometryDefinitions,
                                    shape: Shape)
    requires shape in shapes && KindOf(shape, configs, definitions) == CustomGeometry
    ensures var u := Analysis(shapes, configs, definitions);
      && IsInfix(SwitchCase(shape.shapeType), GenerateCustomGeometryComponent(u.geometries))
      && IsInfix(definitions[shape.shapeType], GenerateGeometryFunctions(u.geometries, definitions))
  {
    var u := Analysis(shapes, configs, definitions);
    AnalysisMembers(shapes, configs, definitions, CustomGeometry);
    assert Recorded(shape) in u.geometries;
    var k :| 0 <= k < |u.geometries| && u.geometries[k] == shape.shapeType;
    CustomGeometryHasCase(u.geometries, k);
    InfixOfJoin(DefinitionTexts(u.geometries, definitions), "\n\n", k);
  }
}
