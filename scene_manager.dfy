/** The texture and material registries of the scene manager
    (Source/SceneManager.cpp): a fixed array of (GL name, tag) pairs filled
    from slot 0 upwards, a list of named materials, first-match lookups by tag,
    and the shader uniforms published from those lookups. */
module Scene {
  import opened Vectors

  /** Number of slots in the texture array; also the number of texture units
      the scene binds (one per slot). */
  const TextureSlots: nat := 16

  /** Uniform names the scene publishes to the shader. */
  const UseTextureName := "bUseTexture"
  const TextureValueName := "objectTexture"
  const DiffuseColorName := "material.diffuseColor"
  const SpecularColorName := "material.specularColor"
  const ShininessName := "material.shininess"

  /** One registered texture: the GL texture name and the tag it is found by. */
  datatype TextureEntry = TextureEntry(id: nat, tag: string)

  /** One named surface material. */
  datatype Material = Material(tag: string, diffuseColor: Vec3, specularColor: Vec3, shininess: real)

  /** What the image decoder reports for a file: it could not be read, or it
      was decoded with the given number of colour channels. */
  datatype LoadOutcome = DecodeFailed | Decoded(channels: int)

  /** One uniform assignment sent to the shader, in the order it is sent. */
  datatype Uniform =
    | IntValue(name: string, value: int)
    | Sampler2DValue(name: string, unit: int)
    | Vec3Value(name: string, vector: Vec3)
    | FloatValue(name: string, scalar: real)

  /** Texture unit `unit` has the GL texture `id` bound to it. */
  datatype TextureBinding = TextureBinding(unit: nat, id: nat)

  /** Only 3-channel (RGB) and 4-channel (RGBA) images are uploaded. */
  predicate Uploadable(image: LoadOutcome)
  {
    image.Decoded? && (image.channels == 3 || image.channels == 4)
  }

  /** Position of the first occurrence of `tag` in `tags`, or -1 when it does
      not occur: the result of a front-to-back scan that stops at the first
      match. */
  function FirstIndex(tags: seq<string>, tag: string): (r: int)
    ensures -1 <= r < |tags|
    ensures r >= 0 ==> tags[r] == tag && forall j :: 0 <= j < r ==> tags[j] != tag
    ensures r == -1 <==> forall j :: 0 <= j < |tags| ==> tags[j] != tag
    decreases |tags|
  {
    if |tags| == 0 then -1
    else if tags[0] == tag then 0
    else
      var rest := FirstIndex(tags[1..], tag);
      if rest == -1 then -1 else rest + 1
  }

  function TextureTags(entries: seq<TextureEntry>): (tags: seq<string>)
    ensures |tags| == |entries|
    ensures forall i :: 0 <= i < |entries| ==> tags[i] == entries[i].tag
  {
    seq(|entries|, i requires 0 <= i < |entries| => entries[i].tag)
  }

  function MaterialTags(materials: seq<Material>): (tags: seq<string>)
    ensures |tags| == |materials|
    ensures forall i :: 0 <= i < |materials| ==> tags[i] == materials[i].tag
  {
    seq(|materials|, i requires 0 <= i < |materials| => materials[i].tag)
  }

  /** `target` after the colours and shininess of `source` are copied into it;
      its own tag is kept. */
  function CopyShading(target: Material, source: Material): Material
  {
    target.(diffuseColor := source.diffuseColor,
            specularColor := source.specularColor,
            shininess := source.shininess)
  }

  /** The three material uniforms, in the order they are published. */
  function MaterialUniforms(m: Material): seq<Uniform>
  {
    [Vec3Value(DiffuseColorName, m.diffuseColor),
     Vec3Value(SpecularColorName, m.specularColor),
     FloatValue(ShininessName, m.shininess)]
  }

  /** Appending one tag never moves an existing first match; the appended tag
      is found at the end only when it did not occur before. */
  lemma {:induction false} FirstIndexAppend(tags: seq<string>, extra: string, tag: string)
    ensures FirstIndex(tags + [extra], tag) ==
      (var i := FirstIndex(tags, tag);
       if i != -1 then i else if extra == tag then |tags| else -1)
  {
    var grown := tags + [extra];
    var i := FirstIndex(tags, tag);
    var r := FirstIndex(grown, tag);
    assert forall j :: 0 <= j < |tags| ==> grown[j] == tags[j];
    assert grown[|tags|] == extra;
    if i != -1 {
      assert grown[i] == tag;
      assert r <= i;
    } else if extra == tag {
      assert r != -1;
    }
  }

  /** Registering a texture leaves the lookup of every tag already present
      where it was: a later duplicate tag is never found. */
  lemma RegisterKeepsLookups(entries: seq<TextureEntry>, added: TextureEntry, tag: string)
    ensures FirstIndex(TextureTags(entries + [added]), tag) ==
      (var i := FirstIndex(TextureTags(entries), tag);
       if i != -1 then i else if added.tag == tag then |entries| else -1)
  {
    assert TextureTags(entries + [added]) == TextureTags(entries) + [added.tag];
    FirstIndexAppend(TextureTags(entries), added.tag, tag);
  }

  /** When two entries share a tag, lookups of that tag never reach the later
      one. */
  lemma DuplicateTagUnreachable(entries: seq<TextureEntry>, earlier: nat, later: nat)
    requires earlier < later < |entries|
    requires entries[earlier].tag == entries[later].tag
    ensures 0 <= FirstIndex(TextureTags(entries), entries[later].tag) <= earlier
  {
  }

  /** The material lookup reports success on a miss: with a one-entry list
      holding "plastic", the tag "wood" matches nothing, yet the list is not
      empty, which is the only thing `FindMaterial`'s flag tests. */
  lemma FindMaterialMissReportsFound()
    ensures var materials := [Material("plastic", Vec3(1.0, 1.0, 1.0), Vec3(0.2, 0.2, 0.2), 21.0)];
            |materials| > 0 && FirstIndex(MaterialTags(materials), "wood") == -1
  {
  }

  class SceneManager {
    /** The fixed texture array; slots [0, loadedTextures) are in use. */
    const textureIDs: array<TextureEntry>
    var loadedTextures: nat
    var objectMaterials: seq<Material>
    /** Whether a shader manager was supplied (non-null pointer). */
    const shaderAttached: bool

    ghost predicate Valid()
      reads this
    {
      textureIDs.Length == TextureSlots && loadedTextures <= textureIDs.Length
    }

    /** The registered textures, in registration order. */
    ghost function Registered(): seq<TextureEntry>
      reads this, textureIDs
      requires Valid()
    {
      textureIDs[..loadedTextures]
    }

    constructor (shaderAttached: bool)
      ensures Valid() && fresh(textureIDs)
      ensures Registered() == [] && objectMaterials == []
      ensures this.shaderAttached == shaderAttached
    {
      textureIDs := new TextureEntry[TextureSlots](_ => TextureEntry(0, ""));
      loadedTextures := 0;
      objectMaterials := [];
      this.shaderAttached := shaderAttached;
    }

    /** Registers the image as texture `glName` under `tag` in the next free
        slot when it decoded with 3 or 4 channels; otherwise reports failure
        and leaves the registry as it was. */
    method CreateGLTexture(image: LoadOutcome, glName: nat, tag: string) returns (ok: bool)
      requires Valid()
      requires Uploadable(image) ==> loadedTextures < textureIDs.Length
      modifies this`loadedTextures, textureIDs
      ensures Valid()
      ensures ok <==> Uploadable(image)
      ensures ok ==> (loadedTextures == old(loadedTextures) + 1
                      && textureIDs[..] == old(textureIDs[..])[old(loadedTextures) := TextureEntry(glName, tag)])
      ensures !ok ==> loadedTextures == old(loadedTextures) && textureIDs[..] == old(textureIDs[..])
      ensures Registered() == if ok then old(Registered()) + [TextureEntry(glName, tag)] else old(Registered())
    {
      if image.DecodeFailed? {
        return false;
      }
      if image.channels != 3 && image.channels != 4 {
        return false;
      }
      textureIDs[loadedTextures] := TextureEntry(glName, tag);
      loadedTextures := loadedTextures + 1;
      ok := true;
    }

    /** Texture unit i gets the texture in slot i, for every registered slot
        in order. */
    method BindGLTextures() returns (bindings: seq<TextureBinding>)
      requires Valid()
      ensures |bindings| == loadedTextures <= TextureSlots
      ensures forall i :: 0 <= i < |bindings| ==> bindings[i] == TextureBinding(i, textureIDs[i].id)
    {
      bindings := [];
      for i := 0 to loadedTextures
        invariant |bindings| == i
        invariant forall k :: 0 <= k < i ==> bindings[k] == TextureBinding(k, textureIDs[k].id)
      {
        bindings := bindings + [TextureBinding(i, textureIDs[i].id)];
      }
    }

    /** The slot of the first registered texture tagged `tag`, or -1. */
    method FindTextureSlot(tag: string) returns (slot: int)
      requires Valid()
      ensures -1 <= slot < loadedTextures
      ensures slot >= 0 ==> (textureIDs[slot].tag == tag
                             && forall j :: 0 <= j < slot ==> textureIDs[j].tag != tag)
      ensures slot == -1 <==> forall j :: 0 <= j < loadedTextures ==> textureIDs[j].tag != tag
      ensures slot == FirstIndex(TextureTags(Registered()), tag)
    {
      slot := -1;
      var index := 0;
      var found := false;
      while index < loadedTextures && !found
        invariant 0 <= index <= loadedTextures
        invariant forall j :: 0 <= j < index ==> textureIDs[j].tag != tag
        invariant found ==> index < loadedTextures && textureIDs[index].tag == tag && slot == index
        decreases loadedTextures - index, if found then 0 else 1
        invariant !found ==> slot == -1
      {
        if textureIDs[index].tag == tag {
          slot := index;
          found := true;
        } else {
          index := index + 1;
        }
      }
      ghost var tags := TextureTags(Registered());
      assert forall j :: 0 <= j < index ==> tags[j] != tag;
      if found {
        assert tags[index] == tag;
      }
    }

    /** The GL name of the first registered texture tagged `tag`, or -1:
        -1 exactly when the slot lookup misses, otherwise the name stored in
        that slot. */
    method FindTextureID(tag: string) returns (id: int)
      requires Valid()
      ensures var slot := FirstIndex(TextureTags(Registered()), tag);
              id == if slot == -1 then -1 else textureIDs[slot].id
    {
      id := -1;
      var index := 0;
      var found := false;
      while index < loadedTextures && !found
        invariant 0 <= index <= loadedTextures
        invariant forall j :: 0 <= j < index ==> textureIDs[j].tag != tag
        invariant found ==> (index < loadedTextures && textureIDs[index].tag == tag
                             && id == textureIDs[index].id)
        decreases loadedTextures - index, if found then 0 else 1
        invariant !found ==> id == -1
      {
        if textureIDs[index].tag == tag {
          id := textureIDs[index].id;
          found := true;
        } else {
          index := index + 1;
        }
      }
      ghost var tags := TextureTags(Registered());
      assert forall j :: 0 <= j < index ==> tags[j] != tag;
      if found {
        assert tags[index] == tag;
      }
    }

    /** Appends a material to the material list (one `push_back`). */
    method DefineMaterial(m: Material)
      modifies this`objectMaterials
      ensures objectMaterials == old(objectMaterials) + [m]
    {
      objectMaterials := objectMaterials + [m];
    }

    /** The material lookup as the source has it: the flag is false only for
        an empty list; the colours and shininess of the first entry tagged
        `tag` are copied into `material`, which is returned untouched on a
        miss. */
    method FindMaterial(tag: string, material: Material) returns (found: bool, result: Material)
      ensures found <==> |objectMaterials| > 0
      ensures var i := FirstIndex(MaterialTags(objectMaterials), tag);
              result == if i == -1 then material else CopyShading(material, objectMaterials[i])
    {
      result := material;
      if |objectMaterials| == 0 {
        return false, result;
      }
      var index := 0;
      var matched := false;
      while index < |objectMaterials| && !matched
        invariant 0 <= index <= |objectMaterials|
        invariant forall j :: 0 <= j < index ==> objectMaterials[j].tag != tag
        invariant matched ==> (index < |objectMaterials| && objectMaterials[index].tag == tag
                               && result == CopyShading(material, objectMaterials[index]))
        decreases |objectMaterials| - index, if matched then 0 else 1
        invariant !matched ==> result == material
      {
        if objectMaterials[index].tag == tag {
          matched := true;
          result := CopyShading(material, objectMaterials[index]);
        } else {
          index := index + 1;
        }
      }
      ghost var tags := MaterialTags(objectMaterials);
      assert forall j :: 0 <= j < index ==> tags[j] != tag;
      if matched {
        assert tags[index] == tag;
      }
      found := true;
    }

    /** The material lookup with the flag it evidently means to return: true
        exactly when some material is tagged `tag`. */
    method FindMaterialExact(tag: string, material: Material) returns (found: bool, result: Material)
      ensures found <==> exists j :: 0 <= j < |objectMaterials| && objectMaterials[j].tag == tag
      ensures var i := FirstIndex(MaterialTags(objectMaterials), tag);
              result == if i == -1 then material else CopyShading(material, objectMaterials[i])
    {
      result := material;
      var index := 0;
      found := false;
      while index < |objectMaterials| && !found
        invariant 0 <= index <= |objectMaterials|
        invariant forall j :: 0 <= j < index ==> objectMaterials[j].tag != tag
        invariant found ==> (index < |objectMaterials| && objectMaterials[index].tag == tag
                             && result == CopyShading(material, objectMaterials[index]))
        decreases |objectMaterials| - index, if found then 0 else 1
        invariant !found ==> result == material
      {
        if objectMaterials[index].tag == tag {
          found := true;
          result := CopyShading(material, objectMaterials[index]);
        } else {
          index := index + 1;
        }
      }
      ghost var tags := MaterialTags(objectMaterials);
      assert forall j :: 0 <= j < index ==> tags[j] != tag;
      if found {
        assert tags[index] == tag;
      }
    }

    /** Turns texturing on and publishes the slot (not the GL name) of the
        texture tagged `textureTag`, which is -1 when no texture has that tag.
        Nothing is published without a shader manager. */
    method SetShaderTexture(textureTag: string) returns (published: seq<Uniform>)
      requires Valid()
      ensures !shaderAttached ==> published == []
      ensures shaderAttached ==>
        published == [IntValue(UseTextureName, 1),
                      Sampler2DValue(TextureValueName, FirstIndex(TextureTags(Registered()), textureTag))]
    {
      published := [];
      if shaderAttached {
        published := published + [IntValue(UseTextureName, 1)];
        var slot := FindTextureSlot(textureTag);
        published := published + [Sampler2DValue(TextureValueName, slot)];
      }
    }

    /** Publishes the colours and shininess found for `materialTag`. Nothing
        is published when the material list is empty. Otherwise the lookup
        always reports success, so on a miss the values published are those
        of the uninitialised local the lookup writes into, given here as
        `indeterminate`. */
    method SetShaderMaterial(materialTag: string, indeterminate: Material) returns (published: seq<Uniform>)
      requires |objectMaterials| > 0 ==> shaderAttached
      ensures |objectMaterials| == 0 ==> published == []
      ensures |objectMaterials| > 0 ==>
        var i := FirstIndex(MaterialTags(objectMaterials), materialTag);
        published == MaterialUniforms(if i == -1 then indeterminate else objectMaterials[i])
    {
      published := [];
      if |objectMaterials| > 0 {
        var found, material := FindMaterial(materialTag, indeterminate);
        if found {
          published := MaterialUniforms(material);
        }
      }
    }

    /** The material publish with the exact lookup: the colours and shininess
        of the first material tagged `materialTag`, and nothing when no
        material has that tag (in particular when the list is empty). */
    method SetShaderMaterialExact(materialTag: string, indeterminate: Material) returns (published: seq<Uniform>)
      requires |objectMaterials| > 0 ==> shaderAttached
      ensures var i := FirstIndex(MaterialTags(objectMaterials), materialTag);
              published == if i == -1 then [] else MaterialUniforms(objectMaterials[i])
    {
      published := [];
      if |objectMaterials| > 0 {
        var found, material := FindMaterialExact(materialTag, indeterminate);
        if found {
          published := MaterialUniforms(material);
        }
      }
    }
  }

  /** Two textures registered under one tag, then a 1-channel image that is
      refused: the lookup returns the first texture's GL name. */
  method DuplicateTagScenario()
  {
    var scene := new SceneManager(true);
    var ok1 := scene.CreateGLTexture(Decoded(3), 7, "a");
    var ok2 := scene.CreateGLTexture(Decoded(4), 9, "a");
    var ok3 := scene.CreateGLTexture(Decoded(1), 11, "b");
    assert ok1 && ok2 && !ok3;
    assert scene.Registered() == [TextureEntry(7, "a"), TextureEntry(9, "a")];
    var id := scene.FindTextureID("a");
    assert TextureTags(scene.Registered())[0] == "a";
    assert id == 7;
    var slot := scene.FindTextureSlot("b");
    assert slot == -1;
  }
}
