# gh-skyline: year ranges, the generation pipeline and face voxelisation

A Dafny model of three parts of gh-skyline, the GitHub CLI extension that
turns a user's contribution calendar into a 3D-printable STL skyline:

- **Year ranges and file names** (`internal/utils/utils.go`, module `Utils`):
  - parsing "YYYY" or "YYYY-YYYY";
  - validating the range against GitHub's launch year (2008) and the current year;
  - formatting the range as "YYYY" or "YYYY-YY";
  - choosing the output file name, which always ends in ".stl".
- **The generation pipeline** (`cmd/skyline/skyline.go`, module `Skyline`):
  - resolving the GitHub client, the user and the year range;
  - fetching one contribution grid per year;
  - printing one ASCII preview per year, with the header lines stripped after the first year;
  - calling the STL generator once, for one year or for a range.
- **Text and logo on the skyline's face** (`internal/stl/geometry/text.go`, module `TextGeometry`):
  - the username and the year are drawn onto a 2000-pixel-wide raster;
  - the embedded logo is read as a PNG;
  - every lit pixel becomes one voxel, a cube `CreateCube` builds;
  - the cubes' triangles are appended in the order of the nested pixel loops.

Support modules:

- `Errors` (`errors.dfy`) holds Go-style errors:
  - plain messages;
  - `%w`-wrapped errors;
  - the project's kinded errors (`errors.New(kind, msg, cause)`);
  - `strconv.NumError`.
- `Strs` (`strutil.dfy`) models the Go library functions the code relies on, over strings of runes:
  - `strings.Split`, `Join`, `Trim`, `HasSuffix` and `ToLower`;
  - `strconv.Atoi`;
  - `fmt`'s `%d` and `%0Nd`.

Collaborators outside these files become values handed to the model:

- the GitHub client;
- the logger;
- the ASCII generator and the STL generator;
- font writing, loading and drawing;
- PNG decoding;
- `CreateCube`.

Each is a field of `Skyline.Client`, `Skyline.Env`, `TextGeometry.TextEnv` or `TextGeometry.ImageEnv`. A collaborator the source calls with arguments is a function-valued field, such as `Client.fetchContributions` or `TextEnv.createCube`. One called without arguments, or whose arguments the model does not track, is a plain value holding its result: `Env.initializeClient`, `Env.debugLog`, `Client.authenticatedUser` and `ImageEnv.getEmbeddedImage`. The clock (`time.Now().Year()`) is a `currentYear` parameter.

Loops in the source are loops in methods (`for ... to` in `FetchContributionData`, `while` elsewhere), each proved against a specification function:

| method | specification function |
|---|---|
| `FetchContributionData` | `Fetched` |
| `FindGridStart` | `GridStart` |
| `YearLoop` | `YearsDone` / `YearPreview` |
| `ScanText` | `Voxelize` over `ScanOrder` |
| `ScanLogo` | `Voxelize` over `ScanOrder` |

The properties are then proved about those functions.

## Model

| member | source | states |
|---|---|---|
| Strs.Split | internal/utils/utils.go:20 | `strings.Split` gives one more piece than there are separators, and no piece contains the separator |
| Strs.JoinSplit | cmd/skyline/skyline.go:75-88 | joining the pieces of a split with the same separator gives the original string back |
| Strs.SplitJoin | cmd/skyline/skyline.go:75-88 | splitting a join of separator-free pieces gives the pieces back |
| Strs.SplitNoSep | internal/utils/utils.go:19-20 | a string without the separator splits into itself alone |
| Strs.SplitAround | internal/utils/utils.go:20 | a separator-free prefix followed by the separator becomes the first piece of the split |
| Strs.CountPositive | internal/utils/utils.go:19 | a rune occurs in a string exactly when its count is positive |
| Strs.JoinAppend | cmd/skyline/skyline.go:88 | joining two lists of pieces puts exactly one separator between their joins |
| Strs.Join | cmd/skyline/skyline.go:88 | `strings.Join` starts with the first piece, followed by the separator when there is more than one piece |
| Strs.JoinSuffix | cmd/skyline/skyline.go:88 | joining the pieces from index g on gives a suffix of joining all the pieces |
| Strs.TrimEmptyIff | cmd/skyline/skyline.go:80 | `strings.Trim(line, c)` is empty exactly when the line consists only of `c` |
| Strs.TrimLeftEmptyIff | cmd/skyline/skyline.go:80 | trimming from the left empties the line exactly when it is all `c`; otherwise the result does not start with `c` |
| Strs.TrimRightKeepsHead | cmd/skyline/skyline.go:80 | trimming from the right never empties a string whose first rune is not `c` |
| Strs.TrimLeft | cmd/skyline/skyline.go:80 | dropping the leading `c`s never lengthens the string, and the result does not start with `c` |
| Strs.TrimRight | cmd/skyline/skyline.go:80 | dropping the trailing `c`s gives a prefix of the string that does not end with `c` |
| Strs.Trim | cmd/skyline/skyline.go:80 | `strings.Trim(line, c)` is no longer than the line and neither starts nor ends with `c` |
| Strs.ToLower | internal/utils/utils.go:69 | lower-casing keeps the length and maps every rune on its own |
| Strs.ToLowerAppend | internal/utils/utils.go:69 | lower-casing distributes over concatenation |
| Strs.Atoi | internal/utils/utils.go:24-36 | `strconv.Atoi` succeeds only on non-empty input and within the 64-bit range; its error is a `NumError` that quotes the input |
| Strs.AtoiAcceptsIff | internal/utils/utils.go:24-36 | `Atoi` accepts only an optional sign followed by at least one digit, and any other rune gives a syntax error; conversely an unsigned, "+" or "-" digit string is read as its signed value, or is a range error outside 64 bits |
| Strs.AtoiReadsNumber | internal/utils/utils.go:24-36 | a digit string with no sign, "+" or "-" is read as its signed value when it fits in 64 bits and is a range error otherwise |
| Strs.DigitsRoundTrip | internal/utils/utils.go:59 | the decimal digits of `n` read back as `n` |
| Strs.LeadingZeros | internal/utils/utils.go:62 | zero padding does not change a digit string's value |
| Strs.PaddedDigits | internal/utils/utils.go:62 | a zero-padded decimal is a non-empty digit string with the number's value |
| Strs.AtoiFormatInt | internal/utils/utils.go:59-62 | `Atoi` reads back what `%d` or `%0Nd` writes, for every 64-bit value and every width |
| Strs.FormatNonNegative | internal/utils/utils.go:62 | `%0Nd` of a non-negative number has only digits, no '-', and at least N runes |
| Strs.DigitsLeading | internal/utils/utils.go:59 | the decimal digits of a positive number do not start with '0' |
| Strs.FormatPlain | internal/utils/utils.go:59 | `%d` writes a non-negative number as a plain decimal (digits, no leading zero except in "0") and a negative one as '-' followed by a plain decimal |
| Strs.FormatInt | internal/utils/utils.go:59-62 | `%0Nd` gives at least N runes and at least one, and starts with '-' exactly when the number is negative |
| Strs.FormatPadding | internal/utils/utils.go:59-62 | `%0Nd` pads only up to N: a result with a leading '0' (after the '-' for a negative number) is exactly N runes long, or is "0" itself when N is 0 |
| Utils.ValidateYearRange | internal/utils/utils.go:45-54 | no error exactly when 2008 <= start <= end <= current year; the bounds message takes precedence over the order message |
| Utils.ParseYearRange | internal/utils/utils.go:18-40 | whenever no error is reported, the range is valid: 2008 <= start <= end <= current year |
| Utils.ParseSingleYear | internal/utils/utils.go:32-38 | without a '-', a number parses to the one-year range and a non-number to `Atoi`'s error with years 0, 0 |
| Utils.ParseFormatError | internal/utils/utils.go:19-23 | with a '-', "invalid year range format" is reported exactly when the input does not hold exactly one '-' |
| Utils.ParseOneDash | internal/utils/utils.go:19-39 | with exactly one '-', the first `Atoi` error of the two halves (start year first) is returned with years 0, 0; otherwise the two years come back with the validation verdict |
| Utils.ParseRangeRoundTrip | internal/utils/utils.go:18-40 | "start-end" written in decimal parses back to (start, end) with the validation verdict |
| Utils.ParseSingleRoundTrip | internal/utils/utils.go:32-39 | a year written in decimal parses back to the one-year range with the validation verdict |
| Utils.GoRem | internal/utils/utils.go:62 | Go's truncating `%`: the remainder completes Go's truncated quotient (a == (a/b)*b + a%b), lies strictly between -b and b, and takes the sign of the dividend |
| Utils.FormatYearRange | internal/utils/utils.go:57-63 | one year formats as a plain decimal (digits only, no leading zero, after a '-' only for a negative year) that `Atoi` reads back as the year; a range of non-negative years splits at its one '-' into at least four digits, nothing but digits and exactly four when the first is '0', reading back as the start year, and exactly two digits reading back as end mod 100 |
| Utils.YearPieces | internal/utils/utils.go:62 | `%04d-%02d` of a non-negative year and a two-digit remainder splits into the two numbers it was written from, with no zero padding beyond four digits |
| Utils.GenerateOutputFilename | internal/utils/utils.go:66-76 | a non-empty override is kept if it ends in ".stl" in any case, else ".stl" is appended; an empty one gives "user-years-github-skyline.stl" |
| Utils.OutputFilenameHasStlSuffix | internal/utils/utils.go:66-76 | every generated file name ends in ".stl", ignoring case |
| Utils.OutputFilenameIdempotent | internal/utils/utils.go:66-73 | feeding a generated name back in as the override returns it unchanged |
| Utils.ParseTestSingleYear | internal/utils/utils_test.go:14-20 | "2024" parses to (2024, 2024) with no error |
| Utils.ParseTestYearRange | internal/utils/utils_test.go:21-27 | "2020-2024" parses to (2020, 2024) with no error |
| Utils.ParseTestInvalidFormat | internal/utils/utils_test.go:28-33 | "2020-2024-2025" is reported as "invalid year range format" |
| Utils.ParseTestInvalidNumber | internal/utils/utils_test.go:34-38 | "abc-2024" is reported as a syntax error on "abc" |
| Utils.ValidateTestVectors | internal/utils/utils_test.go:64-89 | 2020-2024 is valid, 2007-2024 is out of bounds, 2024-2020 is out of order |
| Utils.FormatTestSameYear | internal/utils/utils_test.go:108-113 | one year formats as "2024" |
| Utils.FormatTestDifferentYears | internal/utils/utils_test.go:114-119 | 2020 to 2024 formats as "2020-24" |
| Utils.OutputTestSingleYear | internal/utils/utils_test.go:141-148 | the single year 2024 names "testuser-2024-github-skyline.stl" |
| Utils.OutputTestDifferentYears | internal/utils/utils_test.go:149-156 | 2020 to 2024 names "testuser-2020-24-github-skyline.stl" |
| Utils.OutputTestOverride | internal/utils/utils_test.go:157-164 | the override "myoutput.stl" is kept unchanged |
| Utils.OutputTestOverrideWithoutSuffix | internal/utils/utils.go:67-71 | the override "myoutput" becomes "myoutput.stl" |
| Skyline.FetchContributionData | cmd/skyline/skyline.go:108-122 | a fetch error comes back wrapped as "failed to fetch contributions"; otherwise the grid holds the response's weeks' days, in order and one for one |
| Skyline.FirstGridLine | cmd/skyline/skyline.go:77-86 | the index found is a grid line with no grid line before it; None means no line is a grid line |
| Skyline.GridStart | cmd/skyline/skyline.go:76-86 | the start of the printed part lies within the lines whenever there are any |
| Skyline.FindGridStart | cmd/skyline/skyline.go:75-86 | the loop stops at the first line that holds an empty or low-foundation block and is not only empty blocks, and gives 0 when there is none |
| Skyline.StripHeader | cmd/skyline/skyline.go:74-88 | the preview printed for a later year is a suffix of the year's ASCII art |
| Skyline.StripHeaderDropsLeadingLines | cmd/skyline/skyline.go:74-88 | the preview of a later year only drops whole leading lines: the art is the dropped lines, a newline and the preview; when a grid line exists, the preview starts with it |
| Skyline.YearLoop | cmd/skyline/skyline.go:55-91 | grid i is year start+i's fetched data; preview i is that year's full art for the first year, the header-stripped art after it, and None only when the ASCII error was only warned about; a fetch error or a failed warning stops the loop with that error |
| Skyline.TargetUser | cmd/skyline/skyline.go:35-44 | a given user is kept; otherwise a failed debug log is returned as is, a failed lookup is the NetworkError "failed to get authenticated user", and a successful one gives the authenticated user |
| Skyline.Resolve | cmd/skyline/skyline.go:30-53 | one outcome per path: a failed client is the NetworkError "failed to initialize GitHub client"; a failed user lookup returns its error; without `full` the given range is kept; with `full` a failed join-year lookup is the NetworkError "failed to get user join year" and a successful one gives join year to current year |
| Skyline.StlDispatch | cmd/skyline/skyline.go:98-101 | `GenerateSTL` gets the single grid exactly when one grid was fetched; otherwise `GenerateSTLRange` gets all grids with the range |
| Skyline.DispatchSingleIffOneYear | cmd/skyline/skyline.go:56-101 | once every year is fetched, the single-grid call is made exactly when start and end years coincide |
| Skyline.GenerateSkyline | cmd/skyline/skyline.go:27-105 | resolution errors are returned before anything is printed; a fetch error or a failed warning ends the call with that error; a completed art-only run returns nil and never calls the STL generator; a completed run otherwise makes the STL call with every year's grid under the generated file name and returns its error |
| TextGeometry.IsPixelActive | internal/stl/geometry/text.go:269-273 | a text pixel outside the raster is never lit |
| TextGeometry.IsLogoPixelActive | internal/stl/geometry/text.go:244-247 | a lit logo pixel also passes the text test: the logo test adds the alpha condition to the red one |
| TextGeometry.VoxelBox | internal/stl/geometry/text.go:160-186 | `createVoxelOnFace`'s cube is the square voxel of side baseWidth/2000 at (x, y): [x, x+1] by [-(y+1), -y] face pixels, `height` deep out of the face |
| TextGeometry.CreateVoxelOnFace | internal/stl/geometry/text.go:160-187 | `createVoxelOnFace` returns `CreateCube` of the square voxel of side baseWidth/2000 at (x, y), with its error unchanged |
| TextGeometry.TextVoxelsTile | internal/stl/geometry/text.go:123-139 | text voxels tile the face: each voxel's right and lower neighbours start exactly where it ends |
| TextGeometry.ScaledNeighbour | internal/stl/geometry/text.go:249-251 | horizontally adjacent logo pixels land `scale` face pixels apart, on the same row |
| TextGeometry.LogoVoxelsOverlap | internal/stl/geometry/text.go:249-255 | logo voxels stay one face pixel wide, so with a scale below 1 neighbouring logo voxels overlap |
| TextGeometry.ScanOrderCovers | internal/stl/geometry/text.go:123-124 | the nested loops visit exactly the pixels of the w-by-h face |
| TextGeometry.ScanOrderSorted | internal/stl/geometry/text.go:241-242 | the loops visit each pixel once, x ascending, then y ascending for text and y descending for the logo |
| TextGeometry.ScanOrderPrefix | internal/stl/geometry/text.go:123 | the columns visited before column x form a prefix of the whole scan |
| TextGeometry.VoxelizeErrorSticks | internal/stl/geometry/text.go:133-135 | after a "failed to create cube" error, the rest of the scan returns that same error |
| TextGeometry.ScanVisit | internal/stl/geometry/text.go:124-139 | visiting pixel k of column x extends the scan by one step, and an error at that step is the result of the whole scan |
| TextGeometry.VoxelizeAppend | internal/stl/geometry/text.go:137 | scanning a then b gives a's triangles followed by b's, or the first error |
| TextGeometry.VoxelizeLitOnly | internal/stl/geometry/text.go:125 | unlit pixels contribute nothing: scanning only the lit pixels gives the same result |
| TextGeometry.LitMembers | internal/stl/geometry/text.go:125 | a pixel becomes a voxel exactly when it is scanned and active |
| TextGeometry.VoxelizeCount | internal/stl/geometry/text.go:137 | when `CreateCube` always gives 12 triangles, a scan gives exactly 12 triangles per active pixel |
| TextGeometry.FaceHeightRes | internal/stl/geometry/text.go:79 | the face height is 2000 times baseHeight/baseWidth, rounded down |
| TextGeometry.JustificationPercent | internal/stl/geometry/text.go:104-112 | anchor 0.5 exactly for "center", 1.0 exactly for "right", 0.0 for anything else |
| TextGeometry.LoadFont | internal/stl/geometry/text.go:88-95 | the primary font if it can be written, else the fallback; "failed to load any fonts" with the fallback's error only when both fail |
| TextGeometry.RenderText | internal/stl/geometry/text.go:76-145 | returns the font error, the "failed to load font" error, or the scan of the drawn raster; the temporary font is removed only on success |
| TextGeometry.ScanText | internal/stl/geometry/text.go:122-140 | the nested loops return the triangles of the red-lit pixels in x-then-y order, or the first cube error |
| TextGeometry.DisplayName | internal/stl/geometry/text.go:32-34 | an empty username is shown as "anonymous"; any other name as itself |
| TextGeometry.Create3DText | internal/stl/geometry/text.go:31-61 | the username's triangles (left, 0.1, size 120) followed by the year's (right, 0.97, size 100), or the first error |
| TextGeometry.RenderImage | internal/stl/geometry/text.go:211-267 | returns "failed to open image", "failed to decode PNG", or the scan of the logo placed at its offsets and scale |
| TextGeometry.ScanLogo | internal/stl/geometry/text.go:239-264 | the nested loops return the triangles of the lit, opaque logo pixels, x ascending and y descending, or the first cube error |
| TextGeometry.GenerateImageGeometry | internal/stl/geometry/text.go:190-208 | an image-file error is returned unchanged; otherwise the logo is rendered with scale 0.4, depth 1, offsets 0.03 and 0.15, and the temporary file is always removed |

## Left out

- Output is not modelled. Printing, the logger's messages and the STL file write are collaborators: each preview is returned instead of printed, and the STL generator's call is returned with its error.
- Font rasterisation (`gg`), PNG decoding, the embedded assets and `CreateCube` are not modelled. They are function-valued parameters; only their results and errors enter the model.
- Floating point is not modelled. Coordinates and sizes are exact `real`s, and `int(...)` of the face height is the floor of the exact quotient. IEEE rounding of `2000 * baseHeight / baseWidth` could differ by one pixel.
- TextGeometry.VoxelBox: requires a positive base width and height, which the source does not check; a zero width makes its float division give infinities, which the real-number model does not have.
- TextGeometry.CreateVoxelOnFace: requires a positive base width and height, which the source does not check; a zero width makes its float division give infinities, which the real-number model does not have.
- TextGeometry.ScanText: requires a positive base width and height, which the source does not check; a zero width makes its float division give infinities, which the real-number model does not have.
- TextGeometry.RenderText: requires a positive base width and height, which the source does not check; a zero width makes its float division give infinities, which the real-number model does not have.
- TextGeometry.Create3DText: requires a positive base width and height, which the source does not check; a zero width makes its float division give infinities, which the real-number model does not have.
- TextGeometry.RenderImage: requires a positive base width and height, which the source does not check; a zero width makes its float division give infinities, which the real-number model does not have.
- TextGeometry.ScanLogo: requires a positive base width and height, which the source does not check; a zero width makes its float division give infinities, which the real-number model does not have.
- TextGeometry.GenerateImageGeometry: requires a positive base width and height, which the source does not check; a zero width makes its float division give infinities, which the real-number model does not have.
- TextGeometry.FaceHeightRes: requires a positive base width and height, which the source does not check; a zero width makes its float division give infinities, which the real-number model does not have.
- TextGeometry.RenderImage: the image's `Bounds().Min` is taken to be (0, 0), as it is for a decoded PNG. The logo's width and height are `Bounds().Max`.
- TextGeometry.RenderImage: the error from closing the image reader is only printed by the source, so it is not modelled.
- TextGeometry.RenderText: the deferred font cleanup is registered only after the pixel loops (internal/stl/geometry/text.go:142). The error returns at text.go:96-98 and 133-135 therefore skip removing the font that was written. At text.go:91-93 both font writes failed, so there is no file to remove. The model reports this as `cleanedUp`, which is false on every error path.
- Strs.ToLower: lowers ASCII letters only. That is exact for the ".stl" check, because no other rune lowers to '.', 's', 't' or 'l'. It is not the whole of Unicode case mapping.
- Strs.Atoi: for inputs that are both malformed and too long, Go's exact choice between its syntax and range errors is not modelled. A well-formed number outside 64 bits is a range error; anything else malformed is a syntax error.
- Skyline.YearLoop: Go's `int` year counter is unbounded here. The loop cannot overflow for real years.
- Skyline.GenerateSkyline: the grids it returns are ghost. The source keeps them internal and hands them only to the STL generator, and the returned `StlRequest` shows them.
- `stl/geometry/text.go` outside `internal/` is an older copy of the geometry code and is not part of this model.
