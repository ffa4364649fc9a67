# Clicker economy and quit guard, modelled in Dafny

This project models two small state machines of a Unity "clicker" game.

- **`Click`** (`clicker.dfy`, module `Clicker`). This is the click economy. It has the gold balance (`currentGold`), the gold per click (`clickGold`) and the next upgrade price (`needGold`). It also has the label text and the upgrade button state that `UpdateUI` derives from them. Last, it has the handle of the timed face-change coroutine that every click cancels and restarts. The economy is also given as a value (`Economy`, with `Earn`, `Upgrade` and `Play`). The class methods are proved to move the object's state exactly as those functions say. The properties (invariant, monotone price, n clicks, the default scenario) are proved as lemmas about the functions.
- **`QuitManager`** (`quit.dfy`, module `Quit`). This is the quit guard. The first instance to wake becomes the singleton and subscribes to the quit request. Later instances are destroyed. The handler refuses the first quit request and starts the quit sequence. That sequence plays the normal or the ending quit clip, fades a black overlay in over `fadeDuration` for `max(clip length, fadeDuration)` seconds, and then quits. Every later request is allowed. The static `Instance` and the `Application.wantsToQuit` subscriber list live in a `QuitHost` object.
- `decimal.dfy` (module `Decimal`) models how C# string interpolation renders an `int`. It also has a parser, and a proof that parsing reads the rendering back. `base.dfy` holds `Option` and the 32-bit `int` range.

Design decisions:
- `Mathf.CeilToInt(needGold * 1.5f)` is modelled as the exact ceiling `(3n + 1) / 2`. The float product is exact whenever `3 * needGold < 2^24`, and for odd `needGold` only then. So an upgrade requires `3 * needGold < 2^24`. Bounding only `needGold` below 2^24 would not be enough: for an odd `n` above 2^24 / 3 the product `n * 1.5f` is rounded.
- The C# `int` additions of a click and of an upgrade carry a no-overflow precondition (`IsInt32`).
- The label's currency unit is the literal exactly as `Click.cs` spells it: the four characters U+00B0 U+00F1 U+00B5 U+00E5. These are the EUC-KR bytes of the Korean word for "gold" read as Latin-1.
- `QuitSequence` is `async void`. It runs synchronously up to its first `await`, so `_isQuitting`, the clip played and `blocksRaycasts` are already set when `HandleQuitRequest` returns `false`. With no overlay it even reaches `QuitGame` synchronously. The model splits it into two parts. `QuitManager.QuitSequence` is the part that runs before the first suspension. Its pending continuation is the `pending` field. `QuitManager.RunFade` is the fade loop that follows. `RunFade` takes the frame lengths (`Time.deltaTime`) that the host supplies as a parameter, and requires that they add up to at least the wait. Timer and alpha are exact `real`s.
- Coroutine handles are natural numbers. `runningFaces` is the set of face coroutines that the scheduler still runs. `FinishFaceExpression(h)` is the completion of a running coroutine `h`; a stopped one never completes.
- `ClickUpgrade` in `Click.cs` saves nothing and starts no face effect. `Click.cs` has no combo detection, ending unlock or floating text.

## Model

| member | source | states |
|---|---|---|
| `Clicker.Click.Awake` | Assets/3.Script/Click.cs:26-44 | starts from the serialized gold, yield and price (0, 1, 10 unless the scene overrides them), which must satisfy the invariant; the label and button are derived, there is no face coroutine and the default sprite is shown if one is set |
| `Clicker.Click.ClickSpeaki` | Assets/3.Script/Click.cs:46-58 | gold grows by exactly the old per-click yield; yield and price are unchanged; the old face coroutine is stopped and exactly one new one runs; the invariant and the UI consistency are kept |
| `Clicker.Click.RestartFaceExpression` | Assets/3.Script/Click.cs:53-54 | stops the running face coroutine if any and leaves exactly one, fresh, face coroutine running; shows the click sprite if one is set |
| `Clicker.Click.FinishFaceExpression` | Assets/3.Script/Click.cs:89-97 | when a running face coroutine finishes, the default sprite is shown if one is set and the handle is cleared, with no face coroutine left running |
| `Clicker.Click.ClickUpgrade` | Assets/3.Script/Click.cs:60-71 | if gold is below the price, nothing changes at all; otherwise gold drops by exactly the old price and stays non-negative, the yield grows by 1, and the new price is the ceiling of 1.5 times the old one and is above it |
| `Clicker.Click.UpdateUI` | Assets/3.Script/Click.cs:99-103 | the label is the gold, the unit and the price rendered as in the source, and the upgrade button is enabled exactly when gold is at least the price |
| `Clicker.CeilOneAndHalf` | Assets/3.Script/Click.cs:66 | the result is the ceiling of 1.5 n (the least integer not below it) and exceeds n when n >= 1 |
| `Clicker.Earn` | Assets/3.Script/Click.cs:56 | a click keeps the invariant and strictly increases the balance |
| `Clicker.Upgrade` | Assets/3.Script/Click.cs:62-66 | an upgrade is a no-op exactly when gold is below the price; a successful one spends the price, adds 1 to the yield and sets the price to the ceiling of 1.5 times it; it keeps the invariant and never lowers the price (and strictly raises it on success) |
| `Clicker.ClicksEarn` | Assets/3.Script/Click.cs:56 | n clicks add exactly n times the yield to the balance and leave yield and price alone |
| `Clicker.PlayKeepsInv` | Assets/3.Script/Click.cs:26-28 | from any state that satisfies `gold >= 0`, `yield >= 1` and `price >= 1`, every sequence of clicks and upgrades keeps it, and never lowers the yield or the price |
| `Clicker.LabelRoundTrip` | Assets/3.Script/Click.cs:101 | the label determines the gold and the price: parsing it gives both back |
| `Clicker.DefaultScenario` | Assets/3.Script/Click.cs:26-28 | from the defaults: one click gives gold 1 with the upgrade disabled and label "1 <unit>\n(UP: 10G)"; ten clicks give gold 10 with the upgrade enabled; the upgrade then gives gold 0, yield 2, price 15 |
| `Clicker.FirstClick` | Assets/3.Script/Click.cs:46-71 | a client of the class: after one click from the defaults the label reads 1 gold with price 10, the upgrade button is disabled, and pressing upgrade leaves the 1 gold |
| `Decimal.NatToDecimal` | Assets/3.Script/Click.cs:101 | a natural number renders as a non-empty run of digits with no leading zero |
| `Decimal.IntToDecimal` | Assets/3.Script/Click.cs:101 | an int renders as a non-empty string without spaces that starts with '-' exactly when the int is negative |
| `Decimal.ParseIntToDecimal` | Assets/3.Script/Click.cs:101 | parsing the rendering of any int gives that int back |
| `Decimal.DigitsValueOfDecimal` | Assets/3.Script/Click.cs:101 | the digits of n denote n |
| `Quit.QuitHost.constructor` | Assets/3.Script/QuitManager.cs:6 | there is no instance, no quit subscriber and nothing destroyed at start |
| `Quit.QuitManager.constructor` | Assets/3.Script/QuitManager.cs:9-20 | the ending has not been seen, no quit is in progress, and there is no overlay yet |
| `Quit.QuitManager.Awake` | Assets/3.Script/QuitManager.cs:22-38 | the first instance to wake becomes Instance, gets a transparent overlay that does not block input and is the only quit subscriber; any later instance is destroyed and changes neither Instance nor the subscribers |
| `Quit.QuitManager.SetEndingFlag` | Assets/3.Script/QuitManager.cs:70-73 | the ending flag is set; no method of the class clears it |
| `Quit.QuitManager.HandleQuitRequest` | Assets/3.Script/QuitManager.cs:75-81 | it allows the exit exactly when a quit is already in progress, and then changes nothing; otherwise it refuses and returns with the quit in progress, so a second request is always allowed |
| `Quit.QuitManager.QuitSequence` | Assets/3.Script/QuitManager.cs:83-98 | marks the quit in progress and plays the ending clip if the ending was seen, else the normal one (if set); with an overlay it blocks input and leaves the fade pending with wait time max(clip length, fade duration); without one it quits at once |
| `Quit.QuitManager.RunFade` | Assets/3.Script/QuitManager.cs:99-111 | writes to the overlay exactly the clamped opacities of the fade loop for the frames given, then full opacity, and quits |
| `Quit.QuitManager.QuitGame` | Assets/3.Script/QuitManager.cs:114-121 | the application quit is requested |
| `Quit.Max` | Assets/3.Script/QuitManager.cs:98 | the result is the larger of the two arguments |
| `Quit.WaitTime` | Assets/3.Script/QuitManager.cs:98 | the wait is at least the fade duration; it is the fade duration when there is no clip, and otherwise the larger of the clip length and the fade duration |
| `Quit.Clamp01` | Assets/3.Script/QuitManager.cs:103 | the result lies in [0, 1] and equals the argument when that already does |
| `Quit.FadeAlpha` | Assets/3.Script/QuitManager.cs:103-104 | the opacity lies in [0, 1], is timer / fadeDuration while the timer is within the fade, and is 1 from the fade duration on |
| `Quit.FadeAlphaMonotone` | Assets/3.Script/QuitManager.cs:103 | the opacity never decreases as the timer grows |
| `Quit.FadeWritesBounded` | Assets/3.Script/QuitManager.cs:100-107 | every opacity the fade loop writes lies in [0, 1] |
| `Quit.FadeWritesNondecreasing` | Assets/3.Script/QuitManager.cs:100-107 | with frames of non-negative length the opacities the loop writes never decrease |
| `Quit.FadeWritesEndOpaque` | Assets/3.Script/QuitManager.cs:98-108 | since the wait lasts at least the fade duration, the loop runs at least once and its last write is already 1, before the final write of 1 |
| `Quit.QuitScenario` | Assets/3.Script/QuitManager.cs:24-111 | two managers wake and the second is discarded; after the ending is seen, the first request is refused and plays the ending clip; with a 3 s clip, a 2 s fade and half-second frames the overlay reads 0.25, 0.5, 1, 1 and then 1; a second request is allowed |
| `Quit.NoOverlayScenario` | Assets/3.Script/QuitManager.cs:87-111 | without an overlay the first request is refused, the normal clip plays and the application quits without fading |

## Left out

- `Clicker.Click.ClickUpgrade` and `Clicker.Click.ClickSpeaki`: C# `int` overflow is not modelled. Instead there are no-overflow preconditions, and an upgrade requires `3 * needGold < 2^24`; `needGold * 1.5f` is exact in single precision whenever that holds, and for odd `needGold` only then.
- `Clicker.Click.ClickSpeaki`, `Clicker.Click.ClickUpgrade`, `Quit.QuitManager.QuitSequence`: the model assumes `audioPlayer`, `_audioSource` and `characterImg` are assigned. If one is null, the source throws: a click aborts before any gold is added (`Click.cs:76`, `Click.cs:91`), an upgrade aborts after changing the three fields but before `UpdateUI`, leaving the label and button stale (`Click.cs:68`), and the quit sequence faults right after marking the quit in progress, with no fade and no `QuitGame` (`QuitManager.cs:90`).
- `Clicker.Click.Awake`: requires serialized starting values that satisfy the invariant. With a scene value `needGold = 0` the price would stay 0 for ever, and with `clickGold = 0` a click would earn nothing; the model does not promise anything for such scenes.
- Audio: the random click clip and its cut-off (`PlayClickSoundCutoff`) and the upgrade clip in `Click.cs` are left out because they are foreign Unity calls. The quit clip is recorded only as the list of clips handed to `PlayOneShot`.
- The jelly bounce coroutine (`Click.cs:50-51`, `82-87`) is a scale change only. It is left out. No cancellation is claimed for it: it is stopped by name but started by reference.
- Sprite, scale and canvas construction (`QuitManager.cs:40-68`) are left out, because they are Unity UI calls. The model keeps only whether the overlay exists, its alpha and whether it blocks input.
- `Quit.QuitManager.RunFade`: frame scheduling and float timing are left out. Frame lengths are a parameter, timer and alpha are exact reals, and the first loop iteration, which in the source runs before the first `await`, is placed in `RunFade`.
- `Quit.QuitManager.constructor`: requires a positive fade duration, because the model divides by it; a zero duration set in the inspector would make Unity divide by zero in float arithmetic.
- `OnDestroy` (`QuitManager.cs:123-126`) and the invocation of the `wantsToQuit` subscribers by Unity are left out. The destroyed duplicate never subscribed, and quitting the process is outside the model.
- The editor versus build quit path (`QuitManager.cs:116-120`) is a platform switch. Both paths are one `QuitGame` event.
- `FloatingText.cs` and `Ending.cs` are not part of this model: the one call from `Ending.cs` into the quit guard is `SetEndingFlag`, which is modelled.
