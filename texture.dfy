/**
 * The moon's colour map: the procedural texture is assigned at once, then a
 * fixed ordered list of external images is tried one after another; the first
 * that loads replaces the map, a failure moves on to the next source, and when
 * all fail the procedural map stays.
 */
module SurfaceMaterial {
  import opened Optional

  /** The external moon images, in the order they are tried. */
  const MoonTextureUrls: seq<string> := [
    "https://raw.githubusercontent.com/mrdoob/three.js/dev/examples/textures/planets/moon_1024.jpg",
    "https://s3-us-west-2.amazonaws.com/s.cdpn.io/17271/lroc_color_poles_1k.jpg",
    "https://threejs.org/examples/textures/planets/moon_1024.jpg"
  ]

  /** A colour map: the canvas-painted one, or an image fetched from a URL. */
  datatype Texture = Procedural | Fetched(url: string)

  /**
   * The first source at or after `from` whose load succeeds, given the
   * loader's answer for every source (`answers[i]` for `urls[i]`).
   */
  function FirstSuccess(answers: seq<bool>, from: nat): (k: Option<nat>)
    ensures k.Some? ==> from <= k.value < |answers| && answers[k.value]
    ensures k.Some? ==> forall j :: from <= j < k.value ==> !answers[j]
    ensures k.None? <==> forall j :: from <= j < |answers| ==> !answers[j]
    decreases |answers| - from
  {
    if from >= |answers| then None
    else if answers[from] then Some(from)
    else FirstSuccess(answers, from + 1)
  }

  class TextureFallback {
    const urls: seq<string>
    /** The material's colour map. */
    var colorMap: Texture
    var textureLoaded: bool
    /** The URLs handed to the texture loader so far, in order. */
    var requested: seq<string>

    /** The material starts out with the procedural map and no external texture. */
    constructor (urls: seq<string>)
      ensures this.urls == urls
      ensures colorMap == Procedural && !textureLoaded && requested == []
    {
      this.urls := urls;
      colorMap := Procedural;
      textureLoaded := false;
      requested := [];
    }

    /**
     * Try the sources from `urlIndex` on: stop at the end of the list or once
     * a texture has loaded; otherwise request `urls[urlIndex]`, take it on
     * success, and on failure go on with the next index.
     */
    method TryLoadTexture(urlIndex: nat, answers: seq<bool>)
      requires |answers| == |urls|
      modifies this
      ensures old(textureLoaded) || urlIndex >= |urls| ==>
        colorMap == old(colorMap) && textureLoaded == old(textureLoaded) && requested == old(requested)
      ensures !old(textureLoaded) && urlIndex < |urls| && FirstSuccess(answers, urlIndex).Some? ==>
        var k := FirstSuccess(answers, urlIndex).value;
        colorMap == Fetched(urls[k]) && textureLoaded && requested == old(requested) + urls[urlIndex..k + 1]
      ensures !old(textureLoaded) && urlIndex < |urls| && FirstSuccess(answers, urlIndex).None? ==>
        colorMap == old(colorMap) && !textureLoaded && requested == old(requested) + urls[urlIndex..]
      decreases |urls| - urlIndex
    {
      if urlIndex >= |urls| || textureLoaded {
        return;
      }
      requested := requested + [urls[urlIndex]];
      if answers[urlIndex] {
        colorMap := Fetched(urls[urlIndex]);
        textureLoaded := true;
      } else {
        TryLoadTexture(urlIndex + 1, answers);
        assert urls[urlIndex..urlIndex + 1] + urls[urlIndex + 1..] == urls[urlIndex..];
        if FirstSuccess(answers, urlIndex).Some? {
          var k := FirstSuccess(answers, urlIndex).value;
          assert urls[urlIndex..urlIndex + 1] + urls[urlIndex + 1..k + 1] == urls[urlIndex..k + 1];
        }
      }
    }
  }

  /**
   * Building the moon's material: the procedural map first, then the chain
   * over the fixed sources. The map is never missing: it is the procedural one
   * or one of the listed images, and it stays procedural when every source fails.
   */
  method LoadMoonTexture(answers: seq<bool>) returns (material: TextureFallback)
    requires |answers| == |MoonTextureUrls|
    ensures fresh(material) && material.urls == MoonTextureUrls
    ensures material.colorMap == Procedural || (material.colorMap.Fetched? && material.colorMap.url in MoonTextureUrls)
    ensures material.textureLoaded <==> exists j :: 0 <= j < |answers| && answers[j]
    ensures (forall j :: 0 <= j < |answers| ==> !answers[j]) ==> material.colorMap == Procedural
    ensures FirstSuccess(answers, 0).Some? ==>
      material.colorMap == Fetched(MoonTextureUrls[FirstSuccess(answers, 0).value])
      && material.requested == MoonTextureUrls[..FirstSuccess(answers, 0).value + 1]
    ensures FirstSuccess(answers, 0).None? ==> material.requested == MoonTextureUrls
    ensures |material.requested| <= |MoonTextureUrls|
  {
    material := new TextureFallback(MoonTextureUrls);
    material.TryLoadTexture(0, answers);
  }
}
