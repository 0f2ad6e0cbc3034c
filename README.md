# ProseFlow website: platform detection and feature navigation, in Dafny

This project models the decision logic of the ProseFlow marketing site. The
rest of the site is markup and animation. The model covers three components:

- **Download section** (`download.dfy`, module `Download`). The static catalog
  maps each operating system to its architecture variants and their installer
  and portable artifacts. A first-match CPU-architecture sniffer reads the user
  agent and platform strings. It calls a WebGL renderer probe only for the
  `MacIntel` platform. An operating-system chooser defaults to Windows. A
  recommendation builder takes the variant built for the detected
  architecture, or else the first one listed, and produces the main button's
  label and link. A version field starts as `latest` and takes the release
  tag, minus one leading `v`, once a successful response arrives.
- **Hero section** (`hero.dfy`, module `Hero`). It runs the same platform
  chain (shared in `platform.dfy`, module `Platform`), but its default is
  `macOS`. It also has a one-way `videoError` flag.
- **Feature universe** (`features.dfy`, module `Features`). It covers the
  group catalog, the group lookup with its fallback to the first group, the
  `main`/`group` view state, the feature nodes generated for a group (with
  ids `group-index`), the rule that picks which pairs of group nodes get a
  connection line, and the galaxy backdrop's particle list (filled once with
  1200 particles, then turned on every frame).

`strings.dfy` (module `Strings`) gives the JavaScript string primitives the
components use. `startsWith` is the prefix test itself. `includes` is a
left-to-right scan, proved equivalent to "the pattern occurs at some offset".
It also holds the decimal rendering of an index, proved
injective through a round trip with a parser, and the `replace(/^v/, '')`
clean-up. `wrappers.dfy` holds `Option` and `FindIndex`, the model of `Array.prototype.find` that both the download section and the feature universe use.

State kept in React `useState` becomes a class with those fields. Each event
handler or effect becomes a method whose `ensures` gives the new state in terms
of a specification function. The function's properties are proved as lemmas.
The architecture sniffer keeps its source form: a method that loops over the
two rule tables with early return. It is proved equal to `Architecture`, the
decision list written out rule by rule.

Inputs the browser supplies become parameters: `navigator.platform`,
`navigator.userAgent`, the probe's outcome, how the release request ended, and
the random layout of feature nodes and particles (functions from an index to
values).

## Model

| member | source | states |
|---|---|---|
| Download.CatalogWellFormed | src/components/DownloadSection/DownloadSection.tsx:5-91 | The catalog has exactly the keys Windows, macOS and Linux. Every entry lists at least one variant, and within an entry no two variants share an architecture tag. The type gives every variant an installer. |
| Download.IsAppleSilicon | src/components/DownloadSection/DownloadSection.tsx:99-116 | The probe answers true only for a renderer string that contains `Apple` and does not contain `Apple GPU`. A missing WebGL context, a missing debug extension or a thrown exception answers false. |
| Download.AppleM1IsAppleSilicon | src/components/DownloadSection/DownloadSection.tsx:111 | The renderer string `Apple M1` is classified as Apple Silicon. |
| Download.AppleGpuIsNotAppleSilicon | src/components/DownloadSection/DownloadSection.tsx:111 | A renderer string containing `Apple GPU` also contains `Apple`, yet it is never classified as Apple Silicon. |
| Download.UaRules | src/components/DownloadSection/DownloadSection.tsx:127-133 | Rule 0 of the user-agent table fires exactly when one of `x86_64`, `x86-64`, `Win64`, `x64`, `amd64`, `WOW64` occurs; rule 1 exactly when `ARM64` or `AArch64` occurs. |
| Download.PlatformRules | src/components/DownloadSection/DownloadSection.tsx:139-145 | Rule 0 of the platform table fires exactly when the platform starts with `Linux x86_64`; rule 1 exactly when it starts with `Linux aarch64` or `Linux armv8l`. |
| Download.CpuArchitecture | src/components/DownloadSection/DownloadSection.tsx:122-157 | The two first-match loops with early return, then the `MacIntel` case and the default, compute the reference decision list `Architecture`. |
| Download.ArchitectureRange | src/components/DownloadSection/DownloadSection.tsx:122-157 | The detected architecture is always `x64` or `arm64`. |
| Download.X64MarkerWins | src/components/DownloadSection/DownloadSection.tsx:127-136 | A user agent with any x64 marker gives `x64`, whatever the platform string and the probe say. |
| Download.X64BeforeArm | src/components/DownloadSection/DownloadSection.tsx:127-136 | x64 markers are checked before ARM markers: a user agent with both `Win64` and `ARM64` gives `x64`. |
| Download.ArmMarker | src/components/DownloadSection/DownloadSection.tsx:129-136 | With no x64 marker, an `ARM64` or `AArch64` user agent gives `arm64`. |
| Download.PlatformOnlyWithoutUaMarker | src/components/DownloadSection/DownloadSection.tsx:132-148 | Once the user agent has a marker, neither the platform string nor the probe changes the result. |
| Download.PlatformRulesDecide | src/components/DownloadSection/DownloadSection.tsx:139-156 | With no user-agent marker: a `Linux x86_64` prefix gives `x64`. A `Linux aarch64` or `Linux armv8l` prefix gives `arm64`. On `MacIntel` the result is `arm64` exactly when the probe says Apple Silicon. |
| Download.PlatformRequiresPrefix | src/components/DownloadSection/DownloadSection.tsx:145 | The platform rules use `startsWith`. `X11; Linux aarch64` contains `Linux aarch64`, so an `includes` test would fire, yet with an empty user agent it gives the `x64` default and not `arm64`. |
| Download.DefaultIsX64 | src/components/DownloadSection/DownloadSection.tsx:139-156 | With no user-agent marker, none of the three platform prefixes and a platform other than `MacIntel`, the result is the `x64` default. |
| Download.EmptyUaHasNoMarker | src/components/DownloadSection/DownloadSection.tsx:133 | An empty user agent contains no marker of either table. |
| Download.MacIntelProbeFailure | src/components/DownloadSection/DownloadSection.tsx:151-153 | With an empty user agent on `MacIntel`, a probe that fails in any way gives `x64`. |
| Download.DetectedOs | src/components/DownloadSection/DownloadSection.tsx:184-192 | The chosen tab is the platform chain's answer, or `Windows` when no branch fires, and it is always a key of the catalog. |
| Download.EmptyPlatformIsWindows | src/components/DownloadSection/DownloadSection.tsx:184 | An empty platform string selects the Windows tab. |
| Wrappers.FindIndex | src/components/DownloadSection/DownloadSection.tsx:202 | `find` answers the first index whose element satisfies the test. It answers none exactly when no element does. The download section searches by architecture tag and the feature universe by group id (FeatureUniverse.tsx lines 244 and 250). |
| Download.ChosenVariant | src/components/DownloadSection/DownloadSection.tsx:201-207 | The recommended variant is listed for the OS. It carries the detected tag exactly when some variant does. Otherwise it is the first variant listed. |
| Download.ChosenVariantUnique | src/components/DownloadSection/DownloadSection.tsx:202 | Tags are unique within an entry, so a variant built for the detected architecture is the one recommended. |
| Download.Recommend | src/components/DownloadSection/DownloadSection.tsx:209-212 | Text and link come from one listed variant: the text is `Download for <os> (<variant name>)` and the link is that variant's installer URL. The variant has the detected tag exactly when some listed variant does; otherwise it is the first in the list. |
| Download.RecommendLinuxX64 | src/components/DownloadSection/DownloadSection.tsx:201-212 | Linux on x64 gets `Download for Linux (Standard (x64))`, linking to the x64 AppImage. |
| Download.RecommendWindowsArmFallsBack | src/components/DownloadSection/DownloadSection.tsx:204-207 | Windows lists no arm64 build, so an arm64 machine is offered the x64 installer. |
| Download.RecommendMacUnknownArch | src/components/DownloadSection/DownloadSection.tsx:204-207 | A tag that macOS does not list falls back to its first variant, Apple Silicon. |
| Download.VersionAfter | src/components/DownloadSection/DownloadSection.tsx:168-179 | A successful response with a non-empty `tag_name` shows the tag minus its leading `v`: `v` followed by the result is the tag when the tag starts with `v`, and the result is the tag itself otherwise. A non-OK status, a missing tag or a failed request keeps the current text. |
| Download.VersionDropsOneV | src/components/DownloadSection/DownloadSection.tsx:162-179 | The displayed version starts as `latest`. `v1.2.0` and `1.2.0` both show `1.2.0`. A 403 or a network failure leaves `latest`. |
| Download.DownloadSection.constructor | src/components/DownloadSection/DownloadSection.tsx:160-162 | Initial state: tab Windows, no recommendation, version `latest`. |
| Download.DownloadSection.DetectAndRecommend | src/components/DownloadSection/DownloadSection.tsx:183-212 | The mount effect sets the tab to `DetectedOs(platform)` and the recommendation to `Recommend` of that OS and the detected architecture. It leaves the version alone. |
| Download.DownloadSection.ApplyReleaseResponse | src/components/DownloadSection/DownloadSection.tsx:169-179 | The end of the release request sets the version to `VersionAfter` of the old one and changes nothing else. |
| Download.DownloadSection.SelectOs | src/components/DownloadSection/DownloadSection.tsx:287 | A tab click selects that OS and changes nothing else. |
| Strings.IncludesIff | src/components/DownloadSection/DownloadSection.tsx:133 | The left-to-right scan modelling `includes` holds exactly when the pattern occurs at some offset. |
| Strings.IncludesPrefix | src/components/DownloadSection/DownloadSection.tsx:111 | A string containing `q` contains every prefix of `q`. |
| Strings.StripLeadingV | src/components/DownloadSection/DownloadSection.tsx:172 | A tag starting with `v` is that `v` followed by the result. Any other tag is returned unchanged. |
| Strings.StripLeadingVInverse | src/components/DownloadSection/DownloadSection.tsx:172 | The clean-up undoes prefixing a `v`, and it removes only one: `vv…` keeps a leading `v`. |
| Strings.NatToStringInjective | src/components/FeatureUniverse/FeatureUniverse.tsx:259 | Distinct indices render as distinct decimal strings. This is proved by reading the digits back. |
| Platform.MatchOs | src/components/HeroSection/HeroSection.tsx:10-17 | `Win` gives Windows. Otherwise `Mac` gives macOS. Otherwise `Linux` gives Linux. Otherwise no branch fires. Each answer holds exactly under its condition. |
| Platform.WinPrecedes | src/components/HeroSection/HeroSection.tsx:11-12 | A platform containing `Win` is Windows, even if it also names Mac or Linux. |
| Platform.MatchMacIntel | src/components/DownloadSection/DownloadSection.tsx:186-189 | `MacIntel` is macOS. |
| Platform.MatchLinux | src/components/DownloadSection/DownloadSection.tsx:186-191 | `Linux x86_64`, `Linux aarch64` and `Linux armv8l` are Linux. |
| Platform.MatchNone | src/components/DownloadSection/DownloadSection.tsx:186-192 | The empty string and `iPhone` fire no branch. |
| Hero.HeroLabel | src/components/HeroSection/HeroSection.tsx:6-17 | After mounting, the label is the platform chain's answer, or the initial `macOS` when no branch fires. |
| Hero.LabelsDivergeOnlyOnDefault | src/components/HeroSection/HeroSection.tsx:6-17 | The hero label and the download tab differ exactly when no branch fires. Then the hero says macOS and the download section says Windows. |
| Hero.EmptyPlatformLabels | src/components/HeroSection/HeroSection.tsx:6-17 | For an empty platform string the hero shows macOS and the download section selects Windows. |
| Hero.HeroSection.constructor | src/components/HeroSection/HeroSection.tsx:6-7 | Initial state: label `macOS`, no video error. |
| Hero.HeroSection.DetectOs | src/components/HeroSection/HeroSection.tsx:9-18 | The effect sets the label to the chain's answer and leaves it alone when no branch fires. |
| Hero.HeroSection.OnVideoError | src/components/HeroSection/HeroSection.tsx:82 | The handler sets the flag to true. It is the only writer, so the flag never goes back to false. |
| Hero.Mount | src/components/HeroSection/HeroSection.tsx:5-18 | A freshly mounted hero shows `HeroLabel(platform)` and no video error. |
| Features.CatalogShape | src/components/FeatureUniverse/FeatureUniverse.tsx:135-242 | There are six groups, with pairwise distinct ids. |
| Features.ActiveGroupData | src/components/FeatureUniverse/FeatureUniverse.tsx:244 | The active group data is a catalog group. It has the active id exactly when some group does. Otherwise it is the first group. |
| Features.ActiveGroupDataUnique | src/components/FeatureUniverse/FeatureUniverse.tsx:244 | Ids are distinct, so the group with the active id is the one shown. |
| Features.UnknownGroupShowsProductivity | src/components/FeatureUniverse/FeatureUniverse.tsx:244 | An unknown id shows the first group, productivity. |
| Features.NodeIdInjective | src/components/FeatureUniverse/FeatureUniverse.tsx:259 | `${groupId}-${index}` gives distinct ids for distinct indices. |
| Features.FeatureNodes | src/components/FeatureUniverse/FeatureUniverse.tsx:253-268 | There is one node per feature, in feature order. Node `i` has the feature's text, the id `groupId-i` and the `i`-th random layout. |
| Features.FeatureNodeIdsDistinct | src/components/FeatureUniverse/FeatureUniverse.tsx:253-268 | The generated node ids are pairwise distinct. |
| Features.NodesAfterClick | src/components/FeatureUniverse/FeatureUniverse.tsx:250-270 | An id that names no group leaves the nodes unchanged. An id that names a group gives exactly `FeatureNodes` of that group's features: one node per feature, in order. |
| Features.ClickListsFeatures | src/components/FeatureUniverse/FeatureUniverse.tsx:250-269 | Clicking catalog group `i` makes node `k` carry id `<id>-k` and the `k`-th feature of that group. |
| Features.FeatureUniverse.constructor | src/components/FeatureUniverse/FeatureUniverse.tsx:118-121 | Initial state: active group `productivity`, view `main`, no feature nodes. |
| Features.FeatureUniverse.ActiveData | src/components/FeatureUniverse/FeatureUniverse.tsx:244 | The group shown is `ActiveGroupData` of the active id. It is a catalog group; it has the active id exactly when some group does, and otherwise it is the first group. |
| Features.FeatureUniverse.HandleNodeClick | src/components/FeatureUniverse/FeatureUniverse.tsx:247-272 | Afterwards the active group is the clicked id and the view is `group`. The nodes are `NodesAfterClick`, so they are unchanged when the id names no group. |
| Features.FeatureUniverse.HandleReturnToMain | src/components/FeatureUniverse/FeatureUniverse.tsx:275-277 | Sets the view to `main` and changes nothing else. The active group and the nodes are kept. |
| Features.Row | src/components/FeatureUniverse/FeatureUniverse.tsx:337-355 | Every pair the inner `map` emits for node `i` satisfies the line test. The pairs come in increasing order of the second index. |
| Features.Rows | src/components/FeatureUniverse/FeatureUniverse.tsx:336-356 | Every emitted pair satisfies the line test, and the pairs come in strictly increasing lexicographic order. |
| Features.ConnectionsIff | src/components/FeatureUniverse/FeatureUniverse.tsx:338-340 | A line joins `(i, j)` exactly when `i < j` and the nodes are less than 60 apart on both axes. |
| Features.ConnectionsOnce | src/components/FeatureUniverse/FeatureUniverse.tsx:336-356 | No line joins a node to itself, and no pair, in either order, is drawn twice. |
| Features.Positions | src/components/FeatureUniverse/FeatureUniverse.tsx:339-340 | The positions the line test reads are the groups' desktop positions, in catalog order. |
| Features.CatalogConnections | src/components/FeatureUniverse/FeatureUniverse.tsx:336-356 | For the real catalog the main view joins exactly eleven of the fifteen pairs, listed in `CatalogLines`. |
| Features.InnerTurnsFaster | src/components/FeatureUniverse/FeatureUniverse.tsx:41 | A particle nearer the centre has a strictly greater angular velocity. |
| Features.Initialized | src/components/FeatureUniverse/FeatureUniverse.tsx:23-45 | An empty list is filled with exactly 1200 particles, particle `i` from the `i`-th draw. A non-empty list is returned unchanged. |
| Features.InitializeOnce | src/components/FeatureUniverse/FeatureUniverse.tsx:23-28 | Running the initialisation again adds nothing, so the count stays 1200. |
| Features.FramesTurn | src/components/FeatureUniverse/FeatureUniverse.tsx:62-63 | After `n` frames each particle's angle has grown by `n` times its own velocity. Its radius and velocity are unchanged. |
| Features.GalaxyCanvas.constructor | src/components/FeatureUniverse/FeatureUniverse.tsx:7 | The particle list starts empty. |
| Features.GalaxyCanvas.InitParticles | src/components/FeatureUniverse/FeatureUniverse.tsx:10-45 | When the canvas, its parent and a 2D context are present, the guarded `for` loop with `push` leaves the list equal to `Initialized` of the old list. When any of them is missing the effect returns early and the list is unchanged. |
| Features.GalaxyCanvas.Frame | src/components/FeatureUniverse/FeatureUniverse.tsx:62-63 | One frame's `forEach` turns every particle by its velocity, in place. |

## Left out

- The `fetch` of the release metadata and its JSON parsing are network I/O. Only how a response ends (`ReleaseResponse`) and its effect on the version text are modelled. A `tag_name` that is not a string is not modelled.
- The WebGL and `OffscreenCanvas` calls inside `isAppleSilicon` are not modelled. Their outcome is the input `ProbeOutcome`, and a null renderer string is `Renderer("")`.
- Feature-node positions and orb sizes are random floating-point values. They are the opaque `Placement` supplied per index, so the `isMobile` radii and centres are not modelled.
- Particle coordinates, the spiral and fuzz formulas, sizes, opacities and colours are floating-point values driven by `Math.random`. A particle's starting radius and angle are the opaque `Draw` supplied per index.
- Features.InnerTurnsFaster: velocity uses exact real arithmetic, not IEEE doubles, so rounding is not modelled.
- Features.FramesTurn: the `n`-frame angle is an exact real sum, `n` times the velocity. Repeated IEEE double additions round at each frame and can drift from that sum. The same holds for `Features.Step`, `Features.Frames` and `Features.GalaxyCanvas.Frame`.
- Features.GalaxyCanvas.InitParticles: whether the canvas, its parent element and its 2D context exist is the input `surface`. The DOM calls that produce them are not modelled.
- The `console.warn` in the WebGL probe and the two `console.error` calls after a failed release request are logging only. They are not modelled because they change no state.
- The canvas drawing is host-runtime plumbing and is not modelled. This covers the projection onto the ellipse, the visibility test, the core glow, the `ResizeObserver` (galaxy radii, `devicePixelRatio` scaling), and the `requestAnimationFrame`/`cancelAnimationFrame` lifecycle.
- Connection lines are modelled on desktop positions only. The `isMobile` switch that hides them, and the window resize listener behind it, are event-listener glue.
- Hover state (`hoveredGroup`) only drives a tooltip and is not modelled.
- The OS tab list (`Object.keys`), the single-versus-grid layout and every rendered artifact button are markup.
- All JSX, framer-motion animation, Iconify icons and CSS are presentation and are not modelled.
- The header, use-case personas, trust, workflow, hybrid-core, community and footer sections are static content or trivial lookups and are not modelled.
- `App.tsx`, `main.tsx` and `vite.config.ts` are composition and build configuration and are not modelled.
