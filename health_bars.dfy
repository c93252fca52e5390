/** The health-bar overlay of HealthBars.cs: which monsters get a bar
    (PlayerCanSeeHealth), where the bar sits (GetHealthBarOffset and the
    rectangles built in OnRenderedWorld), how much of it is filled, and its
    colour (GetHealthColor).  The drawing calls themselves are represented by
    the HealthBar values OnRenderedWorld returns, one per monster. */
module HealthBars {
  import opened CSharpNumbers

  datatype Option<T> = None | Some(value: T)

  /** The configuration fields HealthBars.cs reads. */
  datatype Config = Config(
    healthBarOffset: int,
    healthBarIsPixelAligned: bool,
    monsterTypeOffset: map<string, int>,
    showHealthNumbers: bool)

  /** The monster classes PlayerCanSeeHealth tells apart, each with the state it
      reads of them.  A subclass falls under the case of its base class, as in a
      C# type pattern; its class name is kept apart, in `typeName`. */
  datatype Species =
    | RockCrab(shellGone: bool, moving: bool)
    | RockGolem(seenPlayer: bool)
    | Bat(seenPlayer: bool)
    | OtherMonster

  /** A character of the current location: a monster or anything else. */
  datatype Kind = NotMonster | Monster(species: Species)

  /** The state of one character as the overlay sees it in a frame.  The local
      position is the viewport-relative position after the `(int)` casts. */
  datatype CharacterView = CharacterView(
    kind: Kind,
    isInvisible: bool,
    typeName: string,
    localX: int,
    localY: int,
    spriteWidth: int,
    spriteHeight: int,
    health: int,
    maxHealth: int)

  /** XNA's integer rectangle. */
  datatype Rect = Rect(x: int, y: int, width: int, height: int) {
    /** `Rectangle.Center.X`. */
    function CenterX(): int {
      x + Quot(width, 2)
    }

    function Right(): int {
      x + width
    }

    function Bottom(): int {
      y + height
    }
  }

  /** A colour with channels as exact reals. */
  datatype Rgb = Rgb(r: real, g: real, b: real)

  /** The text "health/maxHealth"; its size and placement are not modelled. */
  datatype HealthText = HealthText(health: int, maxHealth: int)

  /** The draw calls for one monster, in the order made: the fill rectangle in
      `color`, the border texture over `border`, then the optional text. */
  datatype HealthBar = HealthBar(fill: Rect, color: Rgb, border: Rect, text: Option<HealthText>)

  /** The mod's fields read while rendering: the configuration, the border
      texture's size and the sizes Entry derives from them, in texture pixels. */
  datatype Settings = Settings(
    config: Config,
    borderWidth: int,
    borderHeight: int,
    barWidth: int,
    barHeight: int,
    barOffset: int)

  /** How Entry derives the inner bar size and the base offset. */
  predicate DerivedByEntry(s: Settings) {
    && s.barWidth == s.borderWidth - 4
    && s.barHeight == s.borderHeight - 4
    && s.barOffset == -s.config.healthBarOffset
  }

  /** PlayerCanSeeHealth: whether a monster of this species shows its bar. */
  predicate PlayerCanSeeHealth(species: Species, isInvisible: bool) {
    match species
    case RockCrab(shellGone, moving) => shellGone || moving
    case RockGolem(seenPlayer) => seenPlayer
    case Bat(seenPlayer) => seenPlayer
    case OtherMonster => !isInvisible
  }

  /** The two `continue` guards of the render loop: a monster the player can see. */
  predicate Shown(v: CharacterView) {
    v.kind.Monster? && PlayerCanSeeHealth(v.kind.species, v.isInvisible)
  }

  /** The result of GetHealthBarOffset, with whether it logged a miss. */
  datatype OffsetLookup = OffsetLookup(offset: int, missLogged: bool)

  /** GetHealthBarOffset: the per-type offset (0 when the type is not
      configured, after logging the miss) plus the base offset. */
  function GetHealthBarOffset(s: Settings, typeName: string): OffsetLookup {
    var monsterOffset := if typeName in s.config.monsterTypeOffset then s.config.monsterTypeOffset[typeName] else 0;
    OffsetLookup(monsterOffset + s.barOffset, typeName !in s.config.monsterTypeOffset)
  }

  /** The maximum health after the render loop's correction. */
  function ClampedMaxHealth(maxHealth: int, health: int): (m: int)
    ensures m >= health
    ensures m == maxHealth || (maxHealth < health && m == health)
  {
    if maxHealth < health then health else maxHealth
  }

  /** `healthPercentage`, exactly. */
  function HealthFraction(health: int, maxHealth: int): real
    requires maxHealth != 0
  {
    health as real / maxHealth as real
  }

  /** GetHealthColor: red to yellow up to one half, then towards green. */
  function HealthColor(p: real): Rgb {
    if p > 0.5 then Rgb(1.0 - 1.0 * (p - 0.5), 1.0, 0.0)
    else Rgb(1.0, 1.0 * p * 2.0, 0.0)
  }

  /** `boundingBoxSprite`. */
  function SpriteBox(v: CharacterView, zoom: int): Rect {
    Rect(v.localX, v.localY - Quot(v.spriteHeight * zoom, 2), v.spriteWidth * zoom, v.spriteHeight * zoom)
  }

  /** `healthbarBorderRectangle`, for a resolved offset. */
  function BorderRect(s: Settings, box: Rect, offset: int, zoom: int): Rect {
    Rect(box.CenterX() - Quot(s.borderWidth * zoom, 2),
         box.y + (offset - s.borderHeight) * zoom,
         s.borderWidth * zoom,
         s.borderHeight * zoom)
  }

  /** `adjustedHealthbarWidth`, in texture pixels. */
  function AdjustedBarWidth(s: Settings, p: real): real {
    if s.config.healthBarIsPixelAligned then Max(1, Trunc(s.barWidth as real * p)) as real
    else s.barWidth as real * p
  }

  /** `healthBarRectangle`. */
  function FillRect(s: Settings, border: Rect, adjustedWidth: real, zoom: int): Rect {
    Rect(border.x + 2 * zoom, border.y + 2 * zoom, Trunc(adjustedWidth * zoom as real), s.barHeight * zoom)
  }

  /** The health fraction of a shown monster is defined. */
  predicate Drawable(v: CharacterView) {
    Shown(v) ==> ClampedMaxHealth(v.maxHealth, v.health) != 0
  }

  /** The draw calls for one shown monster. */
  function Bar(s: Settings, zoom: int, v: CharacterView): HealthBar
    requires ClampedMaxHealth(v.maxHealth, v.health) != 0
  {
    var border := BorderRect(s, SpriteBox(v, zoom), GetHealthBarOffset(s, v.typeName).offset, zoom);
    var maxHealth := ClampedMaxHealth(v.maxHealth, v.health);
    var p := HealthFraction(v.health, maxHealth);
    var text := if s.config.showHealthNumbers then Some(HealthText(v.health, maxHealth)) else None;
    HealthBar(FillRect(s, border, AdjustedBarWidth(s, p), zoom), HealthColor(p), border, text)
  }

  /** A character's state after the render loop has passed it. */
  function AfterFrame(v: CharacterView): CharacterView {
    if Shown(v) then v.(maxHealth := ClampedMaxHealth(v.maxHealth, v.health)) else v
  }

  predicate AllDrawable(views: seq<CharacterView>) {
    forall i :: 0 <= i < |views| ==> Drawable(views[i])
  }

  /** The health bars drawn for a list of characters, in list order. */
  function Frame(s: Settings, zoom: int, views: seq<CharacterView>): seq<HealthBar>
    requires AllDrawable(views)
  {
    if views == [] then []
    else
      var last := views[|views| - 1];
      var rest := Frame(s, zoom, views[..|views| - 1]);
      if Shown(last) then rest + [Bar(s, zoom, last)] else rest
  }

  /** The type names whose offset lookups are logged as misses, in order. */
  function MissedTypes(s: Settings, views: seq<CharacterView>): seq<string> {
    if views == [] then []
    else
      var last := views[|views| - 1];
      var rest := MissedTypes(s, views[..|views| - 1]);
      if Shown(last) && GetHealthBarOffset(s, last.typeName).missLogged then rest + [last.typeName] else rest
  }

  /** Frame and MissedTypes over one more character. */
  lemma FrameStep(s: Settings, zoom: int, views: seq<CharacterView>, i: nat)
    requires i < |views| && AllDrawable(views)
    ensures AllDrawable(views[..i]) && AllDrawable(views[..i + 1])
    ensures Frame(s, zoom, views[..i + 1])
            == Frame(s, zoom, views[..i]) + (if Shown(views[i]) then [Bar(s, zoom, views[i])] else [])
    ensures MissedTypes(s, views[..i + 1])
            == MissedTypes(s, views[..i])
               + (if Shown(views[i]) && GetHealthBarOffset(s, views[i].typeName).missLogged then [views[i].typeName] else [])
  {
    assert views[..i + 1][..i] == views[..i];
  }

  /** A character of the game's location list; the overlay writes `maxHealth`. */
  class Character {
    const kind: Kind
    const isInvisible: bool
    const typeName: string
    const localX: int
    const localY: int
    const spriteWidth: int
    const spriteHeight: int
    const health: int
    var maxHealth: int

    constructor (v: CharacterView)
      ensures View() == v
    {
      kind, isInvisible, typeName := v.kind, v.isInvisible, v.typeName;
      localX, localY, spriteWidth, spriteHeight := v.localX, v.localY, v.spriteWidth, v.spriteHeight;
      health, maxHealth := v.health, v.maxHealth;
    }

    function View(): CharacterView
      reads this
    {
      CharacterView(kind, isInvisible, typeName, localX, localY, spriteWidth, spriteHeight, health, maxHealth)
    }
  }

  /** The views of a list of characters. */
  function ViewsOf(cs: seq<Character>): (vs: seq<CharacterView>)
    reads cs
    ensures |vs| == |cs|
    ensures forall i :: 0 <= i < |cs| ==> vs[i] == cs[i].View()
  {
    if cs == [] then [] else ViewsOf(cs[..|cs| - 1]) + [cs[|cs| - 1].View()]
  }

  /** The mod object: Entry fills in the sizes, rendering draws the bars. */
  class HealthBarsMod {
    var healthBarBorderWidth: int
    var healthBarBorderHeight: int
    var healthBarWidth: int
    var healthBarHeight: int
    var healthBarOffset: int
    var config: Config
    var healthTextFontLoaded: bool

    function CurrentSettings(): Settings
      reads this
    {
      Settings(config, healthBarBorderWidth, healthBarBorderHeight, healthBarWidth, healthBarHeight, healthBarOffset)
    }

    ghost predicate Valid()
      reads this
    {
      DerivedByEntry(CurrentSettings()) && healthBarBorderWidth >= 0 && healthBarBorderHeight >= 0
    }

    /** Entry: reads the configuration and the border texture's size. */
    constructor Entry(config: Config, borderTextureWidth: nat, borderTextureHeight: nat)
      ensures Valid()
      ensures CurrentSettings() == Settings(config, borderTextureWidth, borderTextureHeight,
                                            borderTextureWidth - 4, borderTextureHeight - 4,
                                            -config.healthBarOffset)
      ensures !healthTextFontLoaded
    {
      this.config := config;
      healthBarOffset := -config.healthBarOffset;
      healthBarBorderWidth := borderTextureWidth;
      healthBarBorderHeight := borderTextureHeight;
      healthBarWidth := borderTextureWidth - 4;
      healthBarHeight := borderTextureHeight - 4;
      healthTextFontLoaded := false;
    }

    /** OnRenderedWorld: one pass over the location's characters. */
    method OnRenderedWorld(characters: seq<Character>, pixelZoom: int) returns (bars: seq<HealthBar>, log: seq<string>)
      requires AllDrawable(ViewsOf(characters))
      requires forall i, j :: 0 <= i < j < |characters| ==> characters[i] != characters[j]
      modifies this`healthTextFontLoaded, characters
      ensures healthTextFontLoaded
      ensures bars == Frame(CurrentSettings(), pixelZoom, old(ViewsOf(characters)))
      ensures log == MissedTypes(CurrentSettings(), old(ViewsOf(characters)))
      ensures forall i :: 0 <= i < |characters| ==> characters[i].View() == AfterFrame(old(characters[i].View()))
    {
      ghost var before := ViewsOf(characters);
      if !healthTextFontLoaded {
        healthTextFontLoaded := true;
      }
      ghost var s := CurrentSettings();
      bars, log := [], [];
      for i := 0 to |characters|
        invariant s == CurrentSettings() && healthTextFontLoaded
        invariant bars == Frame(s, pixelZoom, before[..i])
        invariant log == MissedTypes(s, before[..i])
        invariant forall j :: 0 <= j < i ==> characters[j].View() == AfterFrame(before[j])
        invariant forall j :: i <= j < |characters| ==> characters[j].View() == before[j]
      {
        FrameStep(s, pixelZoom, before, i);
        var bar, missed := RenderCharacter(characters[i], pixelZoom);
        if missed {
          log := log + [characters[i].typeName];
        }
        if bar.Some? {
          bars := bars + [bar.value];
        }
      }
      assert before[..|characters|] == before;
    }

    /** The body of the render loop for one character: the two guards, then
        the bar's geometry, the correction of `maxHealth` and the colour. */
    method RenderCharacter(monster: Character, pixelZoom: int) returns (bar: Option<HealthBar>, missed: bool)
      requires Drawable(monster.View())
      modifies monster`maxHealth
      ensures monster.View() == AfterFrame(old(monster.View()))
      ensures bar == if Shown(old(monster.View())) then Some(Bar(CurrentSettings(), pixelZoom, old(monster.View()))) else None
      ensures missed <==> Shown(old(monster.View())) && GetHealthBarOffset(CurrentSettings(), monster.typeName).missLogged
    {
      if !monster.kind.Monster? {
        return None, false;
      }
      if !PlayerCanSeeHealth(monster.kind.species, monster.isInvisible) {
        return None, false;
      }
      var settings := CurrentSettings();
      var boundingBoxSprite := SpriteBox(monster.View(), pixelZoom);
      var lookup := GetHealthBarOffset(settings, monster.typeName);
      missed := lookup.missLogged;
      var healthbarBorderRectangle := BorderRect(settings, boundingBoxSprite, lookup.offset, pixelZoom);
      if monster.maxHealth < monster.health {
        monster.maxHealth := monster.health;
      }
      var healthPercentage := HealthFraction(monster.health, monster.maxHealth);
      var adjustedHealthbarWidth := AdjustedBarWidth(settings, healthPercentage);
      var healthBarRectangle := FillRect(settings, healthbarBorderRectangle, adjustedHealthbarWidth, pixelZoom);
      var text := if config.showHealthNumbers then Some(HealthText(monster.health, monster.maxHealth)) else None;
      bar := Some(HealthBar(healthBarRectangle, HealthColor(healthPercentage), healthbarBorderRectangle, text));
    }
  }
}
