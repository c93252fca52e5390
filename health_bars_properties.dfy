/** What the overlay promises about a frame: which characters get a bar, where
    the bar sits, how far it is filled, what colour it has, and that a pass
    changes nothing but the maximum health it corrects. */
module HealthBarsProperties {
  import opened CSharpNumbers
  import opened HealthBars

  // ---------------------------------------------------------------------------
  // Visibility

  /** A rock crab shows its bar once its shell is gone or while it moves; its
      invisibility flag plays no part. */
  lemma RockCrabVisibility(v: CharacterView)
    requires v.kind.Monster? && v.kind.species.RockCrab?
    ensures Shown(v) <==> v.kind.species.shellGone || v.kind.species.moving
    ensures Shown(v) == Shown(v.(isInvisible := !v.isInvisible))
  {
  }

  /** A rock golem or a bat shows its bar exactly when it has seen the player:
      one that has not is hidden even when it is not invisible. */
  lemma SeenPlayerVisibility(v: CharacterView)
    requires v.kind.Monster? && (v.kind.species.RockGolem? || v.kind.species.Bat?)
    ensures Shown(v) <==> v.kind.species.seenPlayer
    ensures !v.kind.species.seenPlayer && !v.isInvisible ==> !Shown(v)
  {
  }

  /** Every other monster shows its bar unless it is invisible; a character
      that is not a monster never has one. */
  lemma DefaultVisibility(v: CharacterView)
    ensures v.kind == Monster(OtherMonster) ==> (Shown(v) <==> !v.isInvisible)
    ensures v.kind == NotMonster ==> !Shown(v)
  {
  }

  /** Flipping the invisibility flag changes the verdict only for a monster
      under the default rule. */
  lemma InvisibilityMattersOnlyByDefault(v: CharacterView)
    requires Shown(v) != Shown(v.(isInvisible := !v.isInvisible))
    ensures v.kind == Monster(OtherMonster)
  {
  }

  // ---------------------------------------------------------------------------
  // The frame as a whole

  /** The shown characters of a list, in order. */
  function ShownOnly(views: seq<CharacterView>): (r: seq<CharacterView>)
    ensures |r| <= |views|
    ensures forall k :: 0 <= k < |r| ==> Shown(r[k]) && r[k] in views
  {
    if views == [] then []
    else if Shown(views[0]) then [views[0]] + ShownOnly(views[1..])
    else ShownOnly(views[1..])
  }

  /** The frame draws one bar per shown character, in list order, and nothing
      for the others. */
  lemma {:induction false} FrameDrawsShownCharacters(s: Settings, zoom: int, views: seq<CharacterView>)
    requires AllDrawable(views)
    ensures |Frame(s, zoom, views)| == |ShownOnly(views)|
    ensures forall k :: 0 <= k < |ShownOnly(views)| ==>
              Drawable(ShownOnly(views)[k]) && Frame(s, zoom, views)[k] == Bar(s, zoom, ShownOnly(views)[k])
  {
    if views != [] {
      var init := views[..|views| - 1];
      var last := views[|views| - 1];
      FrameDrawsShownCharacters(s, zoom, init);
      ShownOnlySnoc(init, last);
      assert views == init + [last];
    }
  }

  lemma {:induction false} ShownOnlySnoc(init: seq<CharacterView>, last: CharacterView)
    ensures ShownOnly(init + [last]) == ShownOnly(init) + (if Shown(last) then [last] else [])
  {
    if init != [] {
      assert (init + [last])[1..] == init[1..] + [last];
      ShownOnlySnoc(init[1..], last);
    } else {
      assert (init + [last])[1..] == [];
    }
  }

  /** A frame over a list with nothing shown draws nothing and logs nothing. */
  lemma {:induction false} HiddenCharactersDrawNothing(s: Settings, zoom: int, views: seq<CharacterView>)
    requires forall i :: 0 <= i < |views| ==> !Shown(views[i])
    ensures AllDrawable(views)
    ensures Frame(s, zoom, views) == [] && MissedTypes(s, views) == []
  {
    if views != [] {
      HiddenCharactersDrawNothing(s, zoom, views[..|views| - 1]);
    }
  }

  /** Characters are processed independently: the frame of two lists one
      after the other is the two frames one after the other. */
  lemma {:induction false} FrameAppend(s: Settings, zoom: int, a: seq<CharacterView>, b: seq<CharacterView>)
    requires AllDrawable(a) && AllDrawable(b)
    ensures AllDrawable(a + b)
    ensures Frame(s, zoom, a + b) == Frame(s, zoom, a) + Frame(s, zoom, b)
    ensures MissedTypes(s, a + b) == MissedTypes(s, a) + MissedTypes(s, b)
  {
    if b == [] {
      assert a + b == a;
    } else {
      var init := b[..|b| - 1];
      FrameAppend(s, zoom, a, init);
      assert (a + b)[..|a + b| - 1] == a + init;
    }
  }

  // ---------------------------------------------------------------------------
  // The maximum-health correction

  /** A pass raises the maximum health of a shown monster to its health when
      it was lower, and changes nothing else of any character. */
  lemma AfterFrameOnlyRaisesMaxHealth(v: CharacterView)
    ensures AfterFrame(v) == v.(maxHealth := AfterFrame(v).maxHealth)
    ensures AfterFrame(v).maxHealth != v.maxHealth <==> Shown(v) && v.maxHealth < v.health
    ensures Shown(v) ==> AfterFrame(v).maxHealth >= v.health
  {
  }

  /** Passing a character a second time changes nothing more and draws the same bar. */
  lemma AfterFrameSettles(s: Settings, zoom: int, v: CharacterView)
    requires Drawable(v)
    ensures AfterFrame(AfterFrame(v)) == AfterFrame(v)
    ensures Shown(AfterFrame(v)) == Shown(v) && Drawable(AfterFrame(v))
    ensures Shown(v) ==> Bar(s, zoom, AfterFrame(v)) == Bar(s, zoom, v)
  {
  }

  function AfterFrameAll(views: seq<CharacterView>): (r: seq<CharacterView>)
    ensures |r| == |views|
    ensures forall i :: 0 <= i < |views| ==> r[i] == AfterFrame(views[i])
  {
    if views == [] then [] else AfterFrameAll(views[..|views| - 1]) + [AfterFrame(views[|views| - 1])]
  }

  /** Rendering the next frame from the corrected state, with nothing else
      changed, draws the same bars and logs the same misses. */
  lemma {:induction false} FrameStable(s: Settings, zoom: int, views: seq<CharacterView>)
    requires AllDrawable(views)
    ensures AllDrawable(AfterFrameAll(views))
    ensures Frame(s, zoom, AfterFrameAll(views)) == Frame(s, zoom, views)
    ensures MissedTypes(s, AfterFrameAll(views)) == MissedTypes(s, views)
  {
    var after := AfterFrameAll(views);
    forall i | 0 <= i < |views| ensures Drawable(after[i]) {
      AfterFrameSettles(s, zoom, views[i]);
    }
    if views != [] {
      var init := views[..|views| - 1];
      FrameStable(s, zoom, init);
      assert after[..|after| - 1] == AfterFrameAll(init);
      AfterFrameSettles(s, zoom, views[|views| - 1]);
    }
  }

  /** With a non-negative health and a positive corrected maximum, the health
      fraction lies in [0, 1]; a monster whose health exceeded its maximum is
      drawn at full health. */
  lemma ClampedFraction(health: int, maxHealth: int)
    requires health >= 0 && ClampedMaxHealth(maxHealth, health) > 0
    ensures 0.0 <= HealthFraction(health, ClampedMaxHealth(maxHealth, health)) <= 1.0
    ensures maxHealth <= health ==> HealthFraction(health, ClampedMaxHealth(maxHealth, health)) == 1.0
  {
    var m := ClampedMaxHealth(maxHealth, health);
    var p := HealthFraction(health, m);
    assert p * m as real == health as real;
    ProductSign(p, m as real);
    ProductSign(1.0 - p, m as real);
  }

  // ---------------------------------------------------------------------------
  // Vertical offset

  /** A configured type gets its configured offset, minus the base offset of
      the configuration; nothing is logged. */
  lemma OffsetOfConfiguredType(s: Settings, typeName: string)
    requires DerivedByEntry(s) && typeName in s.config.monsterTypeOffset
    ensures GetHealthBarOffset(s, typeName).offset == s.config.monsterTypeOffset[typeName] - s.config.healthBarOffset
    ensures !GetHealthBarOffset(s, typeName).missLogged
  {
  }

  /** An unknown type is not an error: it gets exactly the negated base
      offset, the same as a type configured with 0, and the miss is logged. */
  lemma OffsetOfUnknownType(s: Settings, typeName: string)
    requires DerivedByEntry(s) && typeName !in s.config.monsterTypeOffset
    ensures GetHealthBarOffset(s, typeName).offset == -s.config.healthBarOffset
    ensures GetHealthBarOffset(s, typeName).offset
            == GetHealthBarOffset(s.(config := s.config.(monsterTypeOffset := s.config.monsterTypeOffset[typeName := 0])), typeName).offset
    ensures GetHealthBarOffset(s, typeName).missLogged
  {
  }

  // ---------------------------------------------------------------------------
  // Geometry

  /** The border is centred horizontally on the sprite, has the texture's size
      scaled by the zoom, and its bottom edge lies the resolved offset (in
      texture pixels) below the top of the sprite's box. */
  lemma BorderPlacement(s: Settings, zoom: int, v: CharacterView)
    requires ClampedMaxHealth(v.maxHealth, v.health) != 0
    ensures var border := Bar(s, zoom, v).border;
            && border.CenterX() == SpriteBox(v, zoom).CenterX()
            && border.width == s.borderWidth * zoom
            && border.height == s.borderHeight * zoom
            && border.Bottom() == SpriteBox(v, zoom).y + GetHealthBarOffset(s, v.typeName).offset * zoom
  {
    var border := Bar(s, zoom, v).border;
    assert border.y + border.height == SpriteBox(v, zoom).y + (GetHealthBarOffset(s, v.typeName).offset - s.borderHeight) * zoom + s.borderHeight * zoom;
  }

  /** The fill width in integers: the exact fraction of the inner width,
      truncated, at least one texture pixel when pixel aligned. */
  lemma FillWidthInIntegers(s: Settings, zoom: int, v: CharacterView)
    requires ClampedMaxHealth(v.maxHealth, v.health) != 0
    ensures var m := ClampedMaxHealth(v.maxHealth, v.health);
            Bar(s, zoom, v).fill.width
            == if s.config.healthBarIsPixelAligned then Max(1, Quot(s.barWidth * v.health, m)) * zoom
               else Quot(s.barWidth * v.health * zoom, m)
  {
    var m := ClampedMaxHealth(v.maxHealth, v.health);
    var p := HealthFraction(v.health, m);
    assert Bar(s, zoom, v).fill.width == Trunc(AdjustedBarWidth(s, p) * zoom as real);
    FillWidthOfFraction(s, p, v.health, m, zoom);
  }

  lemma FillWidthOfFraction(s: Settings, p: real, health: int, m: int, zoom: int)
    requires m != 0 && p == health as real / m as real
    ensures Trunc(AdjustedBarWidth(s, p) * zoom as real)
            == if s.config.healthBarIsPixelAligned then Max(1, Quot(s.barWidth * health, m)) * zoom
               else Quot(s.barWidth * health * zoom, m)
  {
    if s.config.healthBarIsPixelAligned {
      PixelAlignedFillOfFraction(s, p, health, m, zoom);
    } else {
      SmoothFillOfFraction(s, p, health, m, zoom);
    }
  }

  lemma PixelAlignedFillOfFraction(s: Settings, p: real, health: int, m: int, zoom: int)
    requires m != 0 && p == health as real / m as real && s.config.healthBarIsPixelAligned
    ensures Trunc(AdjustedBarWidth(s, p) * zoom as real) == Max(1, Quot(s.barWidth * health, m)) * zoom
  {
    TruncOfScaledFraction(s.barWidth, p, health, m);
    PixelAlignedFromTrunc(s, p, Quot(s.barWidth * health, m), zoom);
  }

  lemma SmoothFillOfFraction(s: Settings, p: real, health: int, m: int, zoom: int)
    requires m != 0 && p == health as real / m as real && !s.config.healthBarIsPixelAligned
    ensures Trunc(AdjustedBarWidth(s, p) * zoom as real) == Quot(s.barWidth * health * zoom, m)
  {
    TruncOfScaledFractionTwice(s.barWidth, p, health, m, zoom);
    SmoothFromTrunc(s, p, Quot(s.barWidth * health * zoom, m), zoom);
  }

  lemma PixelAlignedFromTrunc(s: Settings, p: real, q: int, zoom: int)
    requires s.config.healthBarIsPixelAligned && Trunc(s.barWidth as real * p) == q
    ensures Trunc(AdjustedBarWidth(s, p) * zoom as real) == Max(1, q) * zoom
  {
    assert AdjustedBarWidth(s, p) == Max(1, q) as real;
    TruncOfProduct(Max(1, q), zoom);
  }

  lemma SmoothFromTrunc(s: Settings, p: real, q: int, zoom: int)
    requires !s.config.healthBarIsPixelAligned && Trunc(s.barWidth as real * p * zoom as real) == q
    ensures Trunc(AdjustedBarWidth(s, p) * zoom as real) == q
  {
    assert AdjustedBarWidth(s, p) == s.barWidth as real * p;
  }

  lemma TruncOfScaledFraction(barWidth: int, p: real, health: int, m: int)
    requires m != 0 && p == health as real / m as real
    ensures Trunc(barWidth as real * p) == Quot(barWidth * health, m)
  {
    assert barWidth as real * p == (barWidth * health) as real / m as real by {
      ScaleQuotient(health, m, barWidth);
    }
    TruncOfQuotient(barWidth * health, m);
  }

  lemma TruncOfScaledFractionTwice(barWidth: int, p: real, health: int, m: int, zoom: int)
    requires m != 0 && p == health as real / m as real
    ensures Trunc(barWidth as real * p * zoom as real) == Quot(barWidth * health * zoom, m)
  {
    ScaledFractionTwice(barWidth, p, health, m, zoom);
    TruncAtQuotient(barWidth * health * zoom, m, barWidth as real * p * zoom as real);
  }

  lemma ScaledFractionTwice(barWidth: int, p: real, health: int, m: int, zoom: int)
    requires m != 0 && p == health as real / m as real
    ensures barWidth as real * p * zoom as real == (barWidth * health * zoom) as real / m as real
  {
    var y := (barWidth * health) as real / m as real;
    assert barWidth as real * p == y by {
      ScaleQuotient(health, m, barWidth);
    }
    assert y * zoom as real == (barWidth * health * zoom) as real / m as real by {
      ScaleQuotient(barWidth * health, m, zoom);
    }
  }

  lemma TruncAtQuotient(a: int, m: int, r: real)
    requires m != 0 && r == a as real / m as real
    ensures Trunc(r) == Quot(a, m)
  {
    TruncOfQuotient(a, m);
  }

  lemma TruncOfProduct(w: int, zoom: int)
    ensures Trunc(w as real * zoom as real) == w * zoom
  {
    assert w as real * zoom as real == (w * zoom) as real;
    TruncOfInt(w * zoom);
  }

  /** For a health fraction in [0, 1], the pixel-aligned fill is between one
      texture pixel and the inner width; it is one texture pixel wide, not
      empty, at zero health. */
  lemma PixelAlignedFillWidth(s: Settings, zoom: int, v: CharacterView)
    requires s.config.healthBarIsPixelAligned && zoom >= 1 && s.barWidth >= 1
    requires v.health >= 0 && ClampedMaxHealth(v.maxHealth, v.health) > 0
    ensures zoom <= Bar(s, zoom, v).fill.width <= s.barWidth * zoom
    ensures v.health == 0 ==> Bar(s, zoom, v).fill.width == zoom
  {
    FillWidthInIntegers(s, zoom, v);
    PixelAlignedWidthBounds(s.barWidth, v.health, ClampedMaxHealth(v.maxHealth, v.health), zoom);
  }

  lemma PixelAlignedWidthBounds(barWidth: int, health: int, m: int, zoom: int)
    requires barWidth >= 1 && zoom >= 1 && 0 <= health <= m && m > 0
    ensures zoom <= Max(1, Quot(barWidth * health, m)) * zoom <= barWidth * zoom
    ensures health == 0 ==> Max(1, Quot(barWidth * health, m)) * zoom == zoom
  {
    QuotOfFraction(barWidth, health, m);
    var w := Max(1, Quot(barWidth * health, m));
    MulMonotone(1, w, zoom);
    MulMonotone(w, barWidth, zoom);
  }

  /** Without pixel alignment the fill is between empty and the inner width. */
  lemma SmoothFillWidth(s: Settings, zoom: int, v: CharacterView)
    requires !s.config.healthBarIsPixelAligned && zoom >= 0 && s.barWidth >= 0
    requires v.health >= 0 && ClampedMaxHealth(v.maxHealth, v.health) > 0
    ensures 0 <= Bar(s, zoom, v).fill.width <= s.barWidth * zoom
  {
    FillWidthInIntegers(s, zoom, v);
    SmoothWidthBounds(s.barWidth, v.health, ClampedMaxHealth(v.maxHealth, v.health), zoom);
  }

  lemma SmoothWidthBounds(barWidth: int, health: int, m: int, zoom: int)
    requires barWidth >= 0 && zoom >= 0 && 0 <= health <= m && m > 0
    ensures 0 <= Quot(barWidth * health * zoom, m) <= barWidth * zoom
  {
    var bz := barWidth * zoom;
    assert bz >= 0 by { MulMonotone(0, barWidth, zoom); }
    assert barWidth * health * zoom == bz * health;
    QuotOfFraction(bz, health, m);
  }

  /** The fill starts two texture pixels inside the border's top-left corner,
      keeps a two-pixel margin at the bottom and at least that at the right:
      it stays inside the border. */
  lemma FillInsideBorder(s: Settings, zoom: int, v: CharacterView)
    requires DerivedByEntry(s) && zoom >= 1
    requires s.borderWidth >= (if s.config.healthBarIsPixelAligned then 5 else 4)
    requires v.health >= 0 && ClampedMaxHealth(v.maxHealth, v.health) > 0
    ensures Bar(s, zoom, v).fill.x == Bar(s, zoom, v).border.x + 2 * zoom
    ensures Bar(s, zoom, v).fill.y == Bar(s, zoom, v).border.y + 2 * zoom
    ensures Bar(s, zoom, v).fill.Right() <= Bar(s, zoom, v).border.Right() - 2 * zoom
    ensures Bar(s, zoom, v).fill.Bottom() == Bar(s, zoom, v).border.Bottom() - 2 * zoom
    ensures Bar(s, zoom, v).fill.width >= (if s.config.healthBarIsPixelAligned then zoom else 0)
  {
    if s.config.healthBarIsPixelAligned {
      PixelAlignedFillWidth(s, zoom, v);
    } else {
      SmoothFillWidth(s, zoom, v);
    }
    assert s.barWidth * zoom == s.borderWidth * zoom - 4 * zoom;
    assert s.barHeight * zoom == s.borderHeight * zoom - 4 * zoom;
  }

  /** More health, against the same maximum, never gives a narrower fill. */
  lemma MoreHealthNeverNarrower(s: Settings, zoom: int, v: CharacterView, health: int)
    requires zoom >= 0 && s.barWidth >= 0
    requires v.health <= health <= ClampedMaxHealth(v.maxHealth, v.health)
    requires ClampedMaxHealth(v.maxHealth, v.health) > 0
    ensures ClampedMaxHealth(v.maxHealth, health) == ClampedMaxHealth(v.maxHealth, v.health)
    ensures Bar(s, zoom, v).fill.width <= Bar(s, zoom, v.(health := health)).fill.width
  {
    var m := ClampedMaxHealth(v.maxHealth, v.health);
    var w := v.(health := health);
    FillWidthInIntegers(s, zoom, v);
    FillWidthInIntegers(s, zoom, w);
    MulMonotone(v.health, health, s.barWidth);
    assert s.barWidth * v.health <= s.barWidth * health;
    QuotMonotone(s.barWidth * v.health, s.barWidth * health, m);
    if s.config.healthBarIsPixelAligned {
      MulMonotone(Max(1, Quot(s.barWidth * v.health, m)), Max(1, Quot(s.barWidth * health, m)), zoom);
    } else {
      MulMonotone(s.barWidth * v.health, s.barWidth * health, zoom);
      QuotMonotone(s.barWidth * v.health * zoom, s.barWidth * health * zoom, m);
    }
  }

  // ---------------------------------------------------------------------------
  // Colour

  /** The gradient: red (1, 0, 0) at zero health, yellow (1, 1, 0) at one
      half, and (0.5, 1, 0) at full health, which is not pure green. */
  lemma HealthColorEndpoints()
    ensures HealthColor(0.0) == Rgb(1.0, 0.0, 0.0)
    ensures HealthColor(0.5) == Rgb(1.0, 1.0, 0.0)
    ensures HealthColor(1.0) == Rgb(0.5, 1.0, 0.0) && HealthColor(1.0) != Rgb(0.0, 1.0, 0.0)
  {
  }

  /** Up to one half the green channel is twice the fraction with red full;
      above it red falls by the excess over one half with green full; blue is
      always off. */
  lemma HealthColorSegments(p: real)
    ensures p <= 0.5 ==> HealthColor(p) == Rgb(1.0, 2.0 * p, 0.0)
    ensures p > 0.5 ==> HealthColor(p) == Rgb(1.0 - (p - 0.5), 1.0, 0.0)
  {
  }

  /** On [0, 1] every channel lies in [0, 1] and one of red or green is full. */
  lemma HealthColorInGamut(p: real)
    requires 0.0 <= p <= 1.0
    ensures 0.5 <= HealthColor(p).r <= 1.0 && 0.0 <= HealthColor(p).g <= 1.0 && HealthColor(p).b == 0.0
    ensures HealthColor(p).r == 1.0 || HealthColor(p).g == 1.0
  {
  }

  function RealAbs(x: real): real {
    if x < 0.0 then -x else x
  }

  /** The two segments meet at one half: no channel jumps anywhere, red moves
      at most as fast as the fraction and green at most twice as fast. */
  lemma HealthColorContinuous(p: real, q: real)
    ensures RealAbs(HealthColor(p).r - HealthColor(q).r) <= RealAbs(p - q)
    ensures RealAbs(HealthColor(p).g - HealthColor(q).g) <= 2.0 * RealAbs(p - q)
    ensures HealthColor(p).b == HealthColor(q).b
  {
  }

  /** More health never makes the bar redder nor less green. */
  lemma HealthColorMonotone(p: real, q: real)
    requires p <= q
    ensures HealthColor(q).r <= HealthColor(p).r && HealthColor(p).g <= HealthColor(q).g
  {
  }

  // ---------------------------------------------------------------------------
  // Examples

  /** A bat at half health, configured offset 9, base offset 0, pixel aligned,
      a 24-pixel-wide border (inner width 20) and a zoom of 4: the fill is 10
      texture pixels, 40 screen pixels, wide and yellow, the offset is 9. */
  lemma BatAtHalfHealth()
    ensures var config := Config(0, true, map["Bat" := 9], false);
            var s := Settings(config, 24, 8, 20, 4, 0);
            var v := CharacterView(Monster(Bat(true)), false, "Bat", 100, 200, 16, 24, 5, 10);
            && DerivedByEntry(s)
            && GetHealthBarOffset(s, "Bat").offset == 9
            && Bar(s, 4, v).fill.width == 40
            && Bar(s, 4, v).color == Rgb(1.0, 1.0, 0.0)
  {
    var config := Config(0, true, map["Bat" := 9], false);
    var s := Settings(config, 24, 8, 20, 4, 0);
    var v := CharacterView(Monster(Bat(true)), false, "Bat", 100, 200, 16, 24, 5, 10);
    FillWidthInIntegers(s, 4, v);
    assert Quot(100, 10) == 10;
  }

  /** Pixel-aligned widths of an inner width of 20: three tenths gives 6, and
      a thousandth still gives 1, never 0. */
  lemma PixelAlignedExamples(v: CharacterView)
    ensures var s := Settings(Config(0, true, map[], false), 24, 8, 20, 4, 0);
            && Bar(s, 1, v.(health := 3, maxHealth := 10)).fill.width == 6
            && Bar(s, 1, v.(health := 1, maxHealth := 1000)).fill.width == 1
  {
    var s := Settings(Config(0, true, map[], false), 24, 8, 20, 4, 0);
    FillWidthInIntegers(s, 1, v.(health := 3, maxHealth := 10));
    FillWidthInIntegers(s, 1, v.(health := 1, maxHealth := 1000));
    assert Quot(60, 10) == 6;
    assert Quot(20, 1000) == 0;
  }
}
