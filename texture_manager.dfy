// The texture registry: loaded textures and the map from texture name to
// texture. Image decoding is outside the model: whether the file could be
// decoded is passed in.
module TextureManager {
  import opened Wrappers
  import File
  import Path
  import Texture

  /** A loaded texture: its image type, its absolute file and whether mip maps
      are generated. */
  datatype LoadedTexture = LoadedTexture(kind: Texture.ImageType, path: string, mipMaps: bool)

  /** Why loading or a lookup failed (the source throws). */
  datatype TextureError =
    | BadPath(error: Path.PathError)
    | LoadFailed(path: string)
    | InvalidTexture(texture: nat)

  class Registry {
    var textures: seq<LoadedTexture>
    /** Texture index by name. */
    var namedTextures: map<string, nat>

    ghost predicate Valid()
      reads this
    {
      (forall n :: n in namedTextures ==> namedTextures[n] < |textures|) &&
      (forall n, m :: n in namedTextures && m in namedTextures && n != m ==> namedTextures[n] != namedTextures[m])
    }

    constructor ()
      ensures Valid()
      ensures textures == [] && namedTextures == map[]
    {
      textures := [];
      namedTextures := map[];
    }

    /** The 2D texture registered under the name; nothing for an absent name
        or for a texture of another type. */
    function Get2D(name: string): (r: Option<nat>)
      requires Valid()
      reads this
      ensures r.Some? <==> name in namedTextures && textures[namedTextures[name]].kind == Texture.Image2D
      ensures r.Some? ==> r.value == namedTextures[name]
    {
      if name in namedTextures then
        if textures[namedTextures[name]].kind != Texture.Image2D then None else Some(namedTextures[name])
      else None
    }

    /** Loads a 2D texture under its file name. A name already registered gives
        its texture when that is 2D and nothing otherwise, and changes nothing;
        a path that is not engine-relative or a file that cannot be decoded is
        an error. */
    method Load2D(filepath: string, generateMipMaps: bool, enginePath: string, decodes: bool)
      returns (r: Result<Option<nat>, TextureError>)
      requires Valid()
      modifies this
      ensures Valid()
      ensures var name := File.GetFileNameFromPath(filepath);
              (name in old(namedTextures) ==>
                 r == Ok(old(Get2D(name))) && textures == old(textures) && namedTextures == old(namedTextures)) &&
              (name !in old(namedTextures) ==>
                 match Path.MakeEngineRelativePathAbsolute(enginePath, filepath)
                 case Err(e) => r == Err(BadPath(e)) && textures == old(textures) && namedTextures == old(namedTextures)
                 case Ok(abs) =>
                   (!decodes ==> r == Err(LoadFailed(abs)) && textures == old(textures) && namedTextures == old(namedTextures)) &&
                   (decodes ==>
                      r == Ok(Some(|old(textures)|)) &&
                      textures == old(textures) + [LoadedTexture(Texture.Image2D, abs, generateMipMaps)] &&
                      namedTextures == old(namedTextures)[name := |old(textures)|]))
    {
      var name := File.GetFileNameFromPath(filepath);
      if name in namedTextures {
        if textures[namedTextures[name]].kind != Texture.Image2D {
          return Ok(None);
        }
        return Ok(Some(namedTextures[name]));
      }
      var absolute := Path.MakeEngineRelativePathAbsolute(enginePath, filepath);
      if absolute.Err? {
        return Err(BadPath(absolute.error));
      }
      if !decodes {
        return Err(LoadFailed(absolute.value));
      }
      var index := Register(name, LoadedTexture(Texture.Image2D, absolute.value, generateMipMaps));
      r := Ok(Some(index));
    }

    /** Appends a texture and registers it under a name not yet registered. */
    method Register(name: string, t: LoadedTexture) returns (index: nat)
      requires Valid() && name !in namedTextures
      modifies this
      ensures Valid()
      ensures index == |old(textures)|
      ensures textures == old(textures) + [t] && namedTextures == old(namedTextures)[name := index]
    {
      index := |textures|;
      textures := textures + [t];
      namedTextures := namedTextures[name := index];
    }

    /** Empties the registry. */
    method Shutdown()
      modifies this
      ensures Valid()
      ensures namedTextures == map[] && textures == []
    {
      namedTextures := map[];
      textures := [];
    }

    /** The name a texture is registered under; an unregistered texture is an error. */
    method GetTextureName(texture: nat) returns (r: Result<string, TextureError>)
      requires Valid()
      ensures r.Ok? ==> r.value in namedTextures && namedTextures[r.value] == texture
      ensures r.Err? <==> texture !in namedTextures.Values
      ensures r.Err? ==> r.error == InvalidTexture(texture)
    {
      var todo := namedTextures.Keys;
      while todo != {}
        invariant todo <= namedTextures.Keys
        invariant forall n :: n in namedTextures && n !in todo ==> namedTextures[n] != texture
        decreases todo
      {
        var n :| n in todo;
        if namedTextures[n] == texture {
          return Ok(n);
        }
        todo := todo - {n};
      }
      return Err(InvalidTexture(texture));
    }
  }
}
