/** The mesh of solaris_1/Mesh.h: stored vertex, index and texture lists, and the rule
    by which Draw gives every texture a texture unit and a sampler uniform name. */
module MeshModel {
  import opened Vectors
  import opened NumberFormat

  newtype GLuint = x: int | 0 <= x < 0x1_0000_0000

  datatype Vertex = Vertex(position: Vec3, normal: Vec3, texCoords: Vec2)

  /** A texture: its GL name and its type string. The asset path is not modelled. */
  datatype Texture = Texture(id: GLuint, textureType: string)

  const DIFFUSE: string := "texture_diffuse"
  const SPECULAR: string := "texture_specular"

  /** What one iteration of Draw's first loop tells GL: activate texture unit `unit`,
      set the sampler uniform called `uniformName` to `samplerValue`, and bind
      `textureId` to that unit. */
  datatype TextureBinding = TextureBinding(unit: nat, uniformName: string, samplerValue: nat, textureId: GLuint)

  /** Number of textures of type `t` in `ts`. */
  function CountOfType(ts: seq<Texture>, t: string): nat {
    if ts == [] then 0
    else CountOfType(ts[..|ts| - 1], t) + (if ts[|ts| - 1].textureType == t then 1 else 0)
  }

  /** The uniform name of texture `i`: a diffuse or specular texture is named by its type
      followed by its 1-based rank among the textures of that type up to and including
      itself; any other texture by its bare type. */
  function UniformName(ts: seq<Texture>, i: nat): string
    requires i < |ts|
  {
    var t := ts[i].textureType;
    if t == DIFFUSE || t == SPECULAR then t + Decimal(CountOfType(ts[..i + 1], t)) else t
  }

  /** What Draw's texture loop must tell GL for texture `i`. */
  function BindingFor(ts: seq<Texture>, i: nat): TextureBinding
    requires i < |ts|
  {
    TextureBinding(i, UniformName(ts, i), i, ts[i].id)
  }

  lemma {:induction false} CountOfTypeMonotone(ts: seq<Texture>, t: string, i: nat, j: nat)
    requires i <= j <= |ts|
    ensures CountOfType(ts[..i], t) <= CountOfType(ts[..j], t)
  {
    if i < j {
      assert ts[..j][..j - 1] == ts[..j - 1];
      CountOfTypeMonotone(ts, t, i, j - 1);
    }
  }

  /** Counting over a whole list with one more texture at its end. */
  lemma CountOfTypeStep(ts: seq<Texture>, t: string, i: nat)
    requires i < |ts|
    ensures CountOfType(ts[..i + 1], t) == CountOfType(ts[..i], t) + (if ts[i].textureType == t then 1 else 0)
  {
    assert ts[..i + 1][..i] == ts[..i];
  }

  /** A diffuse or specular texture's rank is at least 1, so its suffix never reads "0". */
  lemma RankPositive(ts: seq<Texture>, i: nat)
    requires i < |ts|
    ensures CountOfType(ts[..i + 1], ts[i].textureType) >= 1
  {
    CountOfTypeStep(ts, ts[i].textureType, i);
  }

  /** Two textures of the counted type `t` never share a uniform name: their ranks differ,
      and so do the decimal suffixes. */
  lemma {:induction false} CountedNamesDistinct(ts: seq<Texture>, i: nat, j: nat)
    requires i < j < |ts|
    requires ts[i].textureType == ts[j].textureType
    requires ts[i].textureType == DIFFUSE || ts[i].textureType == SPECULAR
    ensures UniformName(ts, i) != UniformName(ts, j)
  {
    var t := ts[i].textureType;
    var a := CountOfType(ts[..i + 1], t);
    var b := CountOfType(ts[..j + 1], t);
    CountOfTypeMonotone(ts, t, i + 1, j);
    CountOfTypeStep(ts, t, j);
    assert a < b;
    DecimalInjective(a, b);
    assert (t + Decimal(a))[|t|..] == Decimal(a);
    assert (t + Decimal(b))[|t|..] == Decimal(b);
  }

  /** A texture of any other type is named by its type string alone. */
  lemma OtherTypeNamedByType(ts: seq<Texture>, i: nat)
    requires i < |ts|
    requires ts[i].textureType != DIFFUSE && ts[i].textureType != SPECULAR
    ensures UniformName(ts, i) == ts[i].textureType
  {
  }

  /** The k-th diffuse texture, counting from 1 in list order, is called
      "texture_diffuse" followed by k in decimal; likewise the specular ones, with a
      count of their own. */
  lemma KthCountedName(ts: seq<Texture>, i: nat, k: nat)
    requires i < |ts|
    requires ts[i].textureType == DIFFUSE || ts[i].textureType == SPECULAR
    requires k == CountOfType(ts[..i], ts[i].textureType) + 1
    ensures UniformName(ts, i) == ts[i].textureType + Decimal(k)
  {
    CountOfTypeStep(ts, ts[i].textureType, i);
  }

  class Mesh {
    var vertices: seq<Vertex>
    var indices: seq<GLuint>
    var textures: seq<Texture>

    /** Stores the three lists as given. The GL buffer upload in SetupMesh is not modelled. */
    constructor (vertices: seq<Vertex>, indices: seq<GLuint>, textures: seq<Texture>)
      ensures this.vertices == vertices && this.indices == indices && this.textures == textures
    {
      this.vertices := vertices;
      this.indices := indices;
      this.textures := textures;
    }

    /** The texture loop of Draw, with the bound `i < textures.size()`. Texture `i` gets
        texture unit `i` and sampler value `i`; the diffuse and specular counters start
        at 1 and end one past the number of textures of their type. */
    method Draw() returns (bindings: seq<TextureBinding>, diffuseNr: nat, specularNr: nat)
      ensures |bindings| == |textures|
      ensures forall i :: 0 <= i < |textures| ==> bindings[i] == BindingFor(textures, i)
      ensures diffuseNr == CountOfType(textures, DIFFUSE) + 1
      ensures specularNr == CountOfType(textures, SPECULAR) + 1
    {
      diffuseNr := 1;
      specularNr := 1;
      bindings := [];
      var i := 0;
      while i < |textures|
        invariant 0 <= i <= |textures|
        invariant |bindings| == i
        invariant forall k :: 0 <= k < i ==> bindings[k] == BindingFor(textures, k)
        invariant diffuseNr == CountOfType(textures[..i], DIFFUSE) + 1
        invariant specularNr == CountOfType(textures[..i], SPECULAR) + 1
      {
        var name := textures[i].textureType;
        var number := "";
        if name == DIFFUSE {
          number := Decimal(diffuseNr);
          diffuseNr := diffuseNr + 1;
        } else if name == SPECULAR {
          number := Decimal(specularNr);
          specularNr := specularNr + 1;
        }
        CountOfTypeStep(textures, DIFFUSE, i);
        CountOfTypeStep(textures, SPECULAR, i);
        assert name + number == UniformName(textures, i);
        bindings := bindings + [TextureBinding(i, name + number, i, textures[i].id)];
        i := i + 1;
      }
      assert textures[..|textures|] == textures;
    }
  }

  /** How the texture loop of Draw as written ends within `fuel` iterations: its
      condition tests the size of the list instead of comparing `i` with it. */
  datatype LoopEnd = Exited | ReadPastEnd(index: nat) | StillRunning

  function AsWrittenTextureLoop(ts: seq<Texture>, i: nat, fuel: nat): LoopEnd
    decreases fuel
  {
    if |ts| == 0 then Exited           // the condition `textures.size()` is 0
    else if fuel == 0 then StillRunning
    else if i >= |ts| then ReadPastEnd(i)  // body reads textures[i]
    else AsWrittenTextureLoop(ts, i + 1, fuel - 1)
  }

  /** As written, the loop never exits on a non-empty list: given enough steps it reads
      textures[textures.size()], one past the end. */
  lemma {:induction false} AsWrittenLoopReadsPastEnd(ts: seq<Texture>, i: nat, fuel: nat)
    requires 0 < |ts| && i <= |ts| && fuel > |ts| - i
    ensures AsWrittenTextureLoop(ts, i, fuel) == ReadPastEnd(|ts|)
    decreases |ts| - i
  {
    if i < |ts| {
      AsWrittenLoopReadsPastEnd(ts, i + 1, fuel - 1);
    }
  }

  /** The smallest input that shows it: one diffuse texture. */
  lemma AsWrittenLoopOneTexture()
    ensures AsWrittenTextureLoop([Texture(1, DIFFUSE)], 0, 2) == ReadPastEnd(1)
  {
  }
}
