/**
 The sprite registry that `RenderState` exposes to scripts: a map from a
 script-chosen identifier to a sprite (texture, position, clip rectangle).

 Every operation that addresses an existing sprite goes through one
 lookup-and-mutate helper, `MapApply`, so an identifier that was never loaded
 (or was cleared) is a silent no-op rather than an error. Loading a sprite
 loads its texture first; a texture that fails to load aborts the call before
 the registry is touched.
 */
module Render {
  import opened Assets

  /** A loaded texture: its identity in the texture cache and its size in pixels. */
  datatype Texture = Texture(id: nat, width: nat, height: nat)

  /** An integer rectangle: the part of the texture a sprite shows. */
  datatype Rect = Rect(left: int, top: int, width: int, height: int)

  datatype Sprite = Sprite(texture: Texture, x: int, y: int, clip: Rect)

  /** What a mutator handed to `MapApply` does with the one sprite it receives:
      the sprite as it leaves the mutator, and the draw submissions made meanwhile. */
  datatype Visit = Visit(sprite: Sprite, draws: seq<Sprite>)

  function LoadTexture(store: map<string, Texture>, path: string): (r: Outcome<Texture>)
    ensures r.Failed? <==> path !in store
    ensures r.Loaded? ==> r.value == store[path]
    ensures r.Failed? ==> EndsWith(r.message, path)
  {
    LoadFrom("texture", store, path)
  }

  /** The rectangle covering a whole texture. */
  function FullRect(t: Texture): Rect
  {
    Rect(0, 0, t.width, t.height)
  }

  /** A sprite made from a texture alone: at the origin, showing the whole texture. */
  function NewSprite(t: Texture): Sprite
  {
    Sprite(t, 0, 0, FullRect(t))
  }

  // The registry after each script-facing operation, as functions of the registry before it.

  /** `load_sprite` once its texture has loaded: swap the texture of an existing
      sprite, or add a sprite built from the texture alone. */
  function Upserted(m: map<string, Sprite>, id: string, t: Texture): (r: map<string, Sprite>)
    ensures r.Keys == m.Keys + {id}
    ensures r[id].texture == t
    ensures id in m ==> r[id].x == m[id].x && r[id].y == m[id].y && r[id].clip == m[id].clip
    ensures id !in m ==> r[id] == NewSprite(t)
    ensures forall k :: k in m && k != id ==> r[k] == m[k]
  {
    if id in m then m[id := m[id].(texture := t)] else m[id := NewSprite(t)]
  }

  /** `clear_sprite`: remove the sprite if present. */
  function Erased(m: map<string, Sprite>, id: string): (r: map<string, Sprite>)
    ensures r.Keys == m.Keys - {id}
    ensures forall k :: k in r ==> r[k] == m[k]
  {
    m - {id}
  }

  /** `set_sprite_position`: move the named sprite, if any. */
  function Positioned(m: map<string, Sprite>, id: string, x: int, y: int): (r: map<string, Sprite>)
    ensures r.Keys == m.Keys
    ensures forall k :: k in m && k != id ==> r[k] == m[k]
    ensures id in m ==> r[id].x == x && r[id].y == y
    ensures id in m ==> r[id].texture == m[id].texture && r[id].clip == m[id].clip
  {
    if id in m then m[id := m[id].(x := x, y := y)] else m
  }

  /** `set_sprite_clip`: change the texture rectangle of the named sprite, if any. */
  function Clipped(m: map<string, Sprite>, id: string, clip: Rect): (r: map<string, Sprite>)
    ensures r.Keys == m.Keys
    ensures forall k :: k in m && k != id ==> r[k] == m[k]
    ensures id in m ==> r[id].clip == clip
    ensures id in m ==> r[id].texture == m[id].texture && r[id].x == m[id].x && r[id].y == m[id].y
  {
    if id in m then m[id := m[id].(clip := clip)] else m
  }

  /** `draw_sprite`: the draw submissions it makes. */
  function Submitted(m: map<string, Sprite>, id: string): (drawn: seq<Sprite>)
    ensures |drawn| == if id in m then 1 else 0
    ensures forall s :: s in drawn ==> id in m && s == m[id]
  {
    if id in m then [m[id]] else []
  }

  class RenderState {
    var spritemap: map<string, Sprite>

    constructor ()
      ensures spritemap == map[]
    {
      spritemap := map[];
    }

    /** Runs `f` on the sprite named `id` and stores what it leaves behind;
        reports whether the identifier was found. */
    method MapApply(id: string, f: Sprite -> Visit) returns (found: bool, draws: seq<Sprite>)
      modifies this
      ensures found <==> id in old(spritemap)
      ensures found ==> spritemap == old(spritemap)[id := f(old(spritemap)[id]).sprite]
      ensures found ==> draws == f(old(spritemap)[id]).draws
      ensures !found ==> spritemap == old(spritemap) && draws == []
    {
      if id in spritemap {
        var v := f(spritemap[id]);
        spritemap := spritemap[id := v.sprite];
        return true, v.draws;
      }
      return false, [];
    }

    method LoadSprite(id: string, path: string, store: map<string, Texture>) returns (r: Outcome<()>)
      modifies this
      ensures r.Failed? <==> path !in store
      ensures r.Failed? ==> spritemap == old(spritemap) && EndsWith(r.message, path)
      ensures r.Loaded? ==> spritemap == Upserted(old(spritemap), id, store[path])
      ensures r.Loaded? ==> id in spritemap && spritemap[id].texture == store[path]
    {
      var texture := LoadTexture(store, path);
      if texture.Failed? {
        return Failed(texture.message);
      }
      var t := texture.value;
      var reload, _ := MapApply(id, (s: Sprite) => Visit(s.(texture := t), []));
      if !reload {
        spritemap := spritemap[id := NewSprite(t)];
      }
      return Loaded(());
    }

    method ClearSprite(id: string)
      modifies this
      ensures spritemap == Erased(old(spritemap), id)
    {
      spritemap := spritemap - {id};
    }

    method SetSpritePosition(id: string, x: int, y: int)
      modifies this
      ensures spritemap == Positioned(old(spritemap), id, x, y)
    {
      var _, _ := MapApply(id, (s: Sprite) => Visit(s.(x := x, y := y), []));
    }

    method SetSpriteClip(id: string, left: int, top: int, width: int, height: int)
      modifies this
      ensures spritemap == Clipped(old(spritemap), id, Rect(left, top, width, height))
    {
      var _, _ := MapApply(id, (s: Sprite) => Visit(s.(clip := Rect(left, top, width, height)), []));
    }

    method DrawSprite(id: string) returns (drawn: seq<Sprite>)
      modifies this
      ensures spritemap == old(spritemap)
      ensures drawn == Submitted(spritemap, id)
    {
      var _, d := MapApply(id, (s: Sprite) => Visit(s, [s]));
      drawn := d;
    }
  }

  /** Clearing an identifier twice is the same as clearing it once. */
  lemma ClearIdempotent(m: map<string, Sprite>, id: string)
    ensures Erased(Erased(m, id), id) == Erased(m, id)
  {
  }

  /** Loading twice under one identifier leaves one sprite with the second
      texture, placed and clipped as after the first load. */
  lemma ReloadKeepsPlacement(m: map<string, Sprite>, id: string, t1: Texture, t2: Texture)
    ensures var once := Upserted(m, id, t1);
            var twice := Upserted(once, id, t2);
            twice.Keys == once.Keys && twice[id] == once[id].(texture := t2)
  {
  }

  /** Load "hero" from "hero.png", move it to (10, 20) and draw it: exactly one
      submission, at (10, 20), showing the whole hero texture. */
  method HeroScenario(store: map<string, Texture>) returns (drawn: seq<Sprite>)
    requires "hero.png" in store
    ensures drawn == [NewSprite(store["hero.png"]).(x := 10, y := 20)]
  {
    var registry := new RenderState();
    var r := registry.LoadSprite("hero", "hero.png", store);
    registry.SetSpritePosition("hero", 10, 20);
    drawn := registry.DrawSprite("hero");
  }
}
