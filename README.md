# HealthBars overlay, modelled in Dafny

HealthBars is a Stardew Valley mod that draws a health bar above every monster
the player can see. On each rendered frame, `OnRenderedWorld` walks the
characters of the current location and skips those that are not monsters or
that the player cannot see (`PlayerCanSeeHealth`). For each remaining monster
it:

- builds the sprite's bounding box;
- places a border rectangle above it, raised or lowered by a per-type offset
  (`GetHealthBarOffset`);
- raises the monster's `MaxHealth` to its `Health` when it is lower;
- fills the inner bar in proportion to the health fraction, in a colour taken
  from a red–yellow–green gradient (`GetHealthColor`);
- optionally adds the text "health/maxHealth".

`Entry` derives the inner bar size from the border texture and negates the
configured base offset.

The project has three modules:

- `CSharpNumbers` (`csharp_numbers.dfy`) holds the two pieces of C# arithmetic
  whose meaning differs from Dafny's:
  - integer division, which truncates toward zero (`Quot`);
  - the `(int)` cast of a floating-point value (`Trunc`).

  It also proves that truncating an exact quotient is the same as dividing the
  integers.
- `HealthBars` (`health_bars.dfy`) is the model itself:
  - `PlayerCanSeeHealth`, `GetHealthBarOffset`, the rectangles, the fill width
    and the colour, as functions;
  - the specification functions `Bar`, `Frame`, `MissedTypes` and
    `AfterFrame`;
  - the classes `Character` and `HealthBarsMod`. `Character` has a mutable
    `maxHealth`; `HealthBarsMod` has the fields `Entry` sets and the
    lazily-loaded font.
  - `OnRenderedWorld` is a loop over the characters. Its per-character body,
    `RenderCharacter`, writes `maxHealth` in place. The loop is proved to
    return exactly `Frame` and `MissedTypes` of the characters as they were,
    and to leave every character in its `AfterFrame` state.
- `HealthBarsProperties` (`health_bars_properties.dfy`) states and proves what
  the overlay promises:
  - the visibility cases;
  - the offset default;
  - a frame drawing exactly one bar per shown monster;
  - the clamp changing nothing but `maxHealth`, and settling after one frame;
  - the fill width in integer arithmetic, its bounds and monotonicity;
  - the fill staying inside the border;
  - the colour gradient's values, continuity and monotonicity;
  - worked examples.

Where `HealthBarsConfig.cs` and `HealthBars.cs` disagree on the configuration's
field names, the model follows the names `HealthBars.cs` reads
(`HealthBarOffset`, `HealthBarIsPixelAligned`, `MonsterTypeOffset`,
`ShowHealthNumbers`). `HealthBarsConfig.cs` is not part of this model.

## Model

| member | source | states |
|---|---|---|
| HealthBars.HealthBarsMod.OnRenderedWorld | HealthBars.cs:116-199 | The bars drawn are `Frame` of the characters' states before the pass. The misses logged are `MissedTypes` of those states. Every character ends in its `AfterFrame` state. The font is loaded afterwards. |
| HealthBars.HealthBarsMod.RenderCharacter | HealthBars.cs:130-171 | A non-monster or a monster the player cannot see yields no bar and no log line. A shown monster yields `Bar` of its state before the call, and logs a miss exactly when its type is not configured. The monster afterwards is its `AfterFrame` state. |
| HealthBars.HealthBarsMod.Entry | HealthBars.cs:75-85 | The settings hold the configuration and the border texture's size. The inner bar is 4 texture pixels smaller in each direction. The base offset is the configured one negated. No font is loaded yet. |
| HealthBars.ClampedMaxHealth | HealthBars.cs:153-154 | The corrected maximum is at least the health. It differs from the old maximum only when the old one was below the health, and then equals the health. |
| HealthBarsProperties.RockCrabVisibility | HealthBars.cs:214-218 | A rock crab is shown iff its shell is gone or it is moving. Its invisibility flag makes no difference. |
| HealthBarsProperties.SeenPlayerVisibility | HealthBars.cs:219-222 | A rock golem or a bat is shown iff it has seen the player. It stays hidden when it has not, even when it is not invisible. |
| HealthBarsProperties.DefaultVisibility | HealthBars.cs:223-224 | Any other monster is shown iff it is not invisible. A character that is not a monster is never shown. |
| HealthBarsProperties.InvisibilityMattersOnlyByDefault | HealthBars.cs:210-226 | If flipping the invisibility flag changes whether a character is shown, the character is a monster under the default case. |
| HealthBarsProperties.FrameDrawsShownCharacters | HealthBars.cs:128-171 | A frame draws exactly one bar per shown character, in list order. The k-th bar is `Bar` of the k-th shown character. |
| HealthBarsProperties.HiddenCharactersDrawNothing | HealthBars.cs:128-134 | A list with no shown character yields no bars and no log lines. |
| HealthBarsProperties.FrameAppend | HealthBars.cs:128-198 | Characters are handled independently. The bars and misses of two lists in a row are those of the first followed by those of the second. |
| HealthBarsProperties.AfterFrameOnlyRaisesMaxHealth | HealthBars.cs:153-154 | A pass changes no field except `maxHealth`. It changes that only for a shown monster whose maximum was below its health. Afterwards a shown monster's maximum is at least its health. |
| HealthBarsProperties.AfterFrameSettles | HealthBars.cs:151-155 | A second pass changes nothing more. The character stays shown or hidden, and a shown one draws the same bar. |
| HealthBarsProperties.FrameStable | HealthBars.cs:151-155 | A frame drawn from the corrected states draws the same bars and logs the same misses as the frame that corrected them. |
| HealthBarsProperties.ClampedFraction | HealthBars.cs:153-155 | With a non-negative health and a positive corrected maximum, the health fraction lies in [0, 1]. It is exactly 1 when the health had reached the maximum. |
| HealthBarsProperties.OffsetOfConfiguredType | HealthBars.cs:242-253 | A configured type gets its configured offset minus the configured base offset, and no miss is logged. |
| HealthBarsProperties.OffsetOfUnknownType | HealthBars.cs:236-254 | An unknown type still gets an offset: exactly the negated base offset, the same as a type configured with 0. A miss is logged. |
| HealthBarsProperties.BorderPlacement | HealthBars.cs:145-149 | The border is centred horizontally on the sprite's box and has the border texture's size times the zoom. Its bottom edge lies the resolved offset times the zoom below the box's top. |
| HealthBarsProperties.FillWidthInIntegers | HealthBars.cs:155-166 | The fill's screen width in integers. Pixel-aligned, it is `max(1, innerW * health / max) * zoom` with C# integer division. Otherwise it is `innerW * health * zoom / max`. |
| HealthBarsProperties.PixelAlignedFillWidth | HealthBars.cs:158-159 | With a fraction in [0, 1], the pixel-aligned fill is between one texture pixel and the inner width. At zero health it is one texture pixel wide, never empty. |
| HealthBarsProperties.SmoothFillWidth | HealthBars.cs:158-160 | Without pixel alignment, and with a fraction in [0, 1], the fill is between empty and the inner width. |
| HealthBarsProperties.FillInsideBorder | HealthBars.cs:162-167 | The fill starts 2 texture pixels right of and below the border's corner. It ends 2 texture pixels above the border's bottom and at most 2 before its right edge. So it stays inside the border. |
| HealthBarsProperties.MoreHealthNeverNarrower | HealthBars.cs:155-166 | More health against the same maximum never gives a narrower fill. |
| HealthBarsProperties.HealthColorEndpoints | HealthBars.cs:265-270 | Zero health is red (1, 0, 0) and one half is yellow (1, 1, 0). Full health is (0.5, 1, 0), not pure green. |
| HealthBarsProperties.HealthColorSegments | HealthBars.cs:267-269 | Up to one half the colour is (1, 2p, 0). Above it the colour is (1 - (p - 0.5), 1, 0). |
| HealthBarsProperties.HealthColorInGamut | HealthBars.cs:265-270 | For a fraction in [0, 1], red lies in [0.5, 1], green in [0, 1] and blue is 0. One of red and green is full. |
| HealthBarsProperties.HealthColorContinuous | HealthBars.cs:267-269 | The two segments meet at one half. Red changes at most as fast as the fraction, green at most twice as fast, and blue never changes. |
| HealthBarsProperties.HealthColorMonotone | HealthBars.cs:257-270 | More health never makes the bar redder, nor less green. |
| HealthBarsProperties.BatAtHalfHealth | HealthBars.cs:137-168 | A worked frame: a seen bat at 5/10 health, with configured offset 9, base offset 0, a 24-pixel border and zoom 4. It gets offset 9 and a fill 40 screen pixels wide, in yellow. |
| HealthBarsProperties.PixelAlignedExamples | HealthBars.cs:158-159 | Worked pixel-aligned widths for an inner width of 20: 3/10 gives 6, and 1/1000 gives 1, not 0. |
| CSharpNumbers.QuotRemainder | HealthBars.cs:146 | C# integer division, as used for `Center.X` and the halvings. The remainder is smaller than the divisor in size and never has the opposite sign of the dividend. |
| CSharpNumbers.TruncBounds | HealthBars.cs:166 | The `(int)` cast of a floating-point value keeps the integer next to it on the side of zero. |
| CSharpNumbers.TruncOfQuotient | HealthBars.cs:159 | Casting the exact quotient of two integers to `int` is the same as dividing them with C# integer division. |
| CSharpNumbers.QuotMonotone | HealthBars.cs:159 | C# division by a positive divisor is monotone in the dividend, on both sides of zero. |
| CSharpNumbers.QuotOfFraction | HealthBars.cs:159 | A fraction h/m in [0, 1] of a non-negative w, taken with C# division, lies in [0, w]. It is 0 when h is 0. |

## Left out

- Drawing: `SpriteBatch.Draw` and `DrawString`, and creating the white texture, are host rendering calls. Each monster's draw calls are represented by the `HealthBar` value the loop returns.
- Health text layout: the text's measurement, scale and position depend on font metrics from the host. The model keeps only the text's content, the health and the corrected maximum.
- Reflection: the private `shellGone` and `seenPlayer` fields, and `isMoving()`, are plain booleans on the species. `VerifyReflectionFields` only logs type mismatches and is not modelled.
- Startup in `Entry`: reading the configuration, loading the texture, registering the event handler and logging are host calls. The configuration and the texture's width and height are the constructor's parameters.
- Debug code: `OnRenderedWorld` overwrites the player's speed and health, and `SpawnMonsters` is a console command. Both touch global game state and play no part in the overlay.
- Game state read per frame: the location's character list, each monster's viewport position after the `(int)` casts, and `Game1.pixelZoom` are inputs.
- The lazily loaded font: `Game1.smallFont` is represented by whether a font has been loaded.
- Log messages: only the type name of each missed lookup is recorded, in order. The message text is not. Lookups whose type name cannot be read are not modelled; `GetType().Name` never fails.
- Subclasses: a subclass of `RockCrab`, `RockGolem` or `Bat` matches its base class's case, as in a C# type pattern, so it is given that species. Its own class name is kept separately as the lookup key.
- Floating point: the health fraction and the colour are exact reals. IEEE rounding is not modelled, nor XNA `Color`'s conversion of float channels to bytes.
- 32-bit integers: the products of sizes, zoom and health are unbounded, with no wrap-around.
- Other character state: only `maxHealth` is mutable in `Character`. The overlay writes no other field, and what the game changes between frames is not modelled.
- HealthBars.HealthBarsMod.OnRenderedWorld: requires distinct character objects. A location's character list holds each character once. For a repeated object the clamp would be applied twice, which is harmless but left unproved.
- HealthBars.HealthBarsMod.RenderCharacter: requires a shown monster's corrected maximum health to be non-zero. With `Health == MaxHealth == 0` the source divides 0 by 0, giving NaN, and no behaviour is invented for that. `OnRenderedWorld` carries the same requirement through `AllDrawable`.
