# CrystalGrowthTracker core rules in Dafny

This project models the small rules inside the CrystalGrowthTracker GUI. The modules are:

- `Results` (`results.dfy`): the results view. It keeps the marker families of a region. It flattens the per-family displacement samples into table rows, lines first. It builds each family's cumulative-displacement series and assigns the plot pens. It picks the first marker of every family and clones markers for the scene.
- `Markup` (`markup.dfy`): the artifact mark-up widget. It holds the drawing state and the artifact kind that the buttons switch. Its playback step requests the next or previous frame, wrapping around the video.
- `Ffmpeg` (`ffmpeg.dfy`): the video reader base. It reads the codec frame rate `"num/den"` and builds the frame data and the two-entry frame-rate list.
- `RegionLabel` (`region_label.dfy`): the region display label. Its index decides which regions a mouse press reports and which are painted. It also fixes the offsets of the centre cross.
- `Project` (`project.dfy`): the project dictionary and its life cycle in the main window. This covers the defaults, `init_new_project`, `start_project` with its refusal, copy, notes and settings rules, `get_result`, `get_selected_region` and the window title.
- `Utils` (`utils.dfy`): the report file layout and the platform-to-OS-name mapping.
- Shared support: `Text` (`str(n)`, `float` on digit strings, `split`, `isspace`), `Paths` (the POSIX `pathlib` operations used: `joinpath`, `name`, `parent`, `stem`), `Geometry` (points, rectangles, segments) and `Wrappers` (`Option`, `Result`).

## How the source is modelled

- Qt widgets whose fields change in place are classes. Their methods state the new state against specification functions, and lemmas state what those functions promise.
- Each signal (`request_frame`, `region_selected`) becomes a sequence field that its emits append to.
- Buttons are enumeration inputs.
- `QRect.contains` and the marker hash functions are function parameters.
- The results store and the velocities calculator are not part of this model. The store is a `Store` value: the regions, every line and point family, and the per-region family lists. The calculator is a function from a region's line and point families to their displacement lists, each sample an opaque `(start, end, length)` record.
- The file system, the clock, the host lookup and `ffmpeg.probe` are inputs. `StartEnvironment` carries whether the path exists and whether `mkdir`, the copies and the notes write succeed, plus the time stamp, host, address, operating-system name and user. The probe result is a list of streams, or `None` for a failed probe.
- The project dictionary (`CGTProject`) has a fixed set of keys. It is a record with one field per key. `proj_full_path` is an `Option`, because the constructor does not create that key.

## Model

| member | source | states |
|---|---|---|
| Results.InRegion | cgt/gui/resultswidget.py:274-282 | the kept families are never more than the input families |
| Results.InRegionMembers | cgt/gui/resultswidget.py:274-282 | a family is kept exactly when it is one of the input families and its first marker's region equals the index |
| Results.InRegionAppend | cgt/gui/resultswidget.py:274-282 | the filter distributes over concatenation, so kept families keep their original relative order |
| Results.CalculateSpeeds | cgt/gui/resultswidget.py:267-282 | the appending loops return exactly the line families and the point families of the region, in order |
| Results.LabelText | cgt/gui/resultswidget.py:203-217 | the marker column reads "Line j" or "Point j", with j the family's position in its list |
| Results.SampleRows | cgt/gui/resultswidget.py:205-210 | one row per sample of a family, row i carrying sample i's start, end and length under that family's label |
| Results.KindRowsLength | cgt/gui/resultswidget.py:203-218 | one row per displacement sample over all families of a kind |
| Results.KindRowsAt | cgt/gui/resultswidget.py:203-218 | sample i of family j is written at row (samples of earlier families) + i, with its start, end and length |
| Results.KindRowsLabels | cgt/gui/resultswidget.py:203-217 | every row of a kind carries that kind and names an existing family |
| Results.TableRowsShape | cgt/gui/resultswidget.py:203-218 | the table has as many rows as samples, and a row is a line row exactly when it comes before all point rows |
| Results.Displacements | cgt/gui/resultswidget.py:244-249 | a series of n samples has n + 1 displacements |
| Results.Frames | cgt/gui/resultswidget.py:245-249 | a series of n samples has n + 1 frames |
| Results.SeriesSteps | cgt/gui/resultswidget.py:244-260 | a series starts at frame 0 and displacement 0.0, each sample adds its length against its end frame, and the last value is the sum of all lengths |
| Results.SumLengthsAppend | cgt/gui/resultswidget.py:246-249 | the total displacement is additive over consecutive runs of samples |
| Results.CumulativeSeries | cgt/gui/resultswidget.py:244-249 | the appending loop builds exactly the cumulative series and its frame axis |
| Results.KindPlots | cgt/gui/resultswidget.py:244-263 | one curve per family of a kind |
| Results.KindPlotsAt | cgt/gui/resultswidget.py:244-263 | curve k of a kind is family k's series drawn with pen firstPen + k |
| Results.GraphPens | cgt/gui/resultswidget.py:241-263 | pens 0 .. lines+points-1 are used once each, the line families taking the first ones in order and the point families the rest |
| Results.Firsts | cgt/gui/resultswidget.py:145-153 | the collection holds the first marker of every family, in family order |
| Results.CloneLine | cgt/gui/resultswidget.py:304-321 | a line clone keeps the line, position, frame and region, takes the given pen, and records the marker's hash as its parent |
| Results.ClonePoint | cgt/gui/resultswidget.py:323-336 | a point clone also keeps the cross centre |
| Results.RegionNames | cgt/gui/resultswidget.py:115-116 | the combo box entries are `str(0)` .. `str(n-1)` |
| Results.LabelsIdentifyFamilies | cgt/gui/resultswidget.py:203-217 | different kinds or family numbers give different marker-column texts, so a row's label determines its kind and family |
| Results.ResultsWidget.constructor | cgt/gui/resultswidget.py:52-87 | a new view starts with no region and no start markers (`None`), then runs `setup_display`: without results, or with no region, nothing is shown or requested; otherwise the box lists every region, region 0's table, graph and start markers are shown, and frame 0 is the only request |
| Results.ResultsWidget.SetupDisplay | cgt/gui/resultswidget.py:104-121 | without results nothing changes; otherwise the combo box lists "0".."n-1" with the first entry current, and only when a region exists are the results of the previous index (a negative one replaced by 0) shown |
| Results.ResultsWidget.ShowResults | cgt/gui/resultswidget.py:124-132 | the table, the graph and the region display all show the given region, and frame 0 is requested |
| Results.ResultsWidget.FillTable | cgt/gui/resultswidget.py:187-218 | the table gets 4 columns, the fixed headers and row count 10; the written rows are one per displacement sample of the region's families, all line rows then all point rows |
| Results.ResultsWidget.WriteKindRows | cgt/gui/resultswidget.py:203-218 | one of the two nested loops appends that kind's rows, and the row counter ends at the number of rows written |
| Results.ResultsWidget.DrawGraphOfRegion | cgt/gui/resultswidget.py:220-263 | the plotted curves are the region's line-family series then its point-family series, with pens counted in plotting order |
| Results.ResultsWidget.PlotKind | cgt/gui/resultswidget.py:241-263 | one of the two plotting loops appends a curve per family of the kind, and the pen counter advances by the number of families |
| Results.ResultsWidget.DisplayRegion | cgt/gui/resultswidget.py:134-155 | the current region is the indexed one under Python indexing, the start markers are the first marker of each of its line and point families (an empty list when the store has none), and frame 0 is requested |
| Results.ResultsWidget.DisplayImage | cgt/gui/resultswidget.py:158-175 | once a region is displayed, the scene holds a clone of every start line, then of every start point, each drawn with the display pen |
| Markup.DrawingState.Value | cgt/gui/artifactmarkupwidget.py:38-44 | the drawing states have the values 0, 2 and 4 |
| Markup.Artifact.Value | cgt/gui/artifactmarkupwidget.py:46-51 | the artifacts have the values 0 and 2 |
| Markup.ValuesIdentifyMembers | cgt/gui/artifactmarkupwidget.py:38-51 | distinct enumeration members have distinct values |
| Markup.ArtifactAfter | cgt/gui/artifactmarkupwidget.py:94-97 | the lines button gives LINE, the points button gives POINT, and any other button keeps the artifact |
| Markup.StateAfter | cgt/gui/artifactmarkupwidget.py:108-113 | the draw, move and delete buttons give DRAW, MOVE and DELETE, and any other button keeps the state |
| Markup.PressTwice | cgt/gui/artifactmarkupwidget.py:88-113 | pressing a button twice has the effect of pressing it once |
| Markup.PyMod | cgt/gui/artifactmarkupwidget.py:164-169 | Python's `%` by a positive length yields a value in [0, length) consistent with floor division |
| Markup.RequestedFrame | cgt/gui/artifactmarkupwidget.py:164-169 | a frame is requested exactly when playing, and it lies in [0, length) |
| Markup.StepAndWrap | cgt/gui/artifactmarkupwidget.py:164-169 | inside the video the step is +1 or -1; the last frame steps forward to 0 and frame 0 steps back to the last frame |
| Markup.StepsAreInverse | cgt/gui/artifactmarkupwidget.py:164-169 | a forward step and a backward step undo each other |
| Markup.ArtifactMarkupWidget.constructor | cgt/gui/artifactmarkupwidget.py:72-76 | a new widget is in state DRAW with artifact LINE |
| Markup.ArtifactMarkupWidget.MarkTypeSelected | cgt/gui/artifactmarkupwidget.py:88-97 | the artifact becomes ArtifactAfter of the old artifact and the button |
| Markup.ArtifactMarkupWidget.MarkingStateSelected | cgt/gui/artifactmarkupwidget.py:102-113 | the state becomes StateAfter of the old state and the button |
| Markup.ArtifactMarkupWidget.Display | cgt/gui/artifactmarkupwidget.py:135-169 | without an image or while hidden nothing changes; otherwise the slider shows the current frame, the label shows frame + 1, and the wrapped next or previous frame is requested only while playing |
| Ffmpeg.FirstVideoStream | cgt/io/ffmpegbase.py:64 | the chosen stream is a video stream and no earlier stream is; none is chosen exactly when no stream is a video stream |
| Ffmpeg.CodecFrameRate | cgt/io/ffmpegbase.py:68-69 | a rate is read only from a string containing '/' |
| Ffmpeg.CodecFrameRateOfFraction | cgt/io/ffmpegbase.py:68-69 | "num/den" reads as num / den, and a zero denominator is refused with ZeroDivisionError |
| Ffmpeg.FfmpegBase.constructor | cgt/io/ffmpegbase.py:37-50 | a reader holds its file name and no video data |
| Ffmpeg.FfmpegBase.ProbeVideo | cgt/io/ffmpegbase.py:52-78 | every exception leaves the stored data alone; a success stores [width, height, duration] of the first video stream, exactly two frame rates (the user rate or else the codec rate, then the codec rate) and the bytes per pixel |
| Ffmpeg.FfmpegBase.GetVideoData | cgt/io/ffmpegbase.py:80-84 | the stored video data, `None` until a probe succeeds |
| Ffmpeg.FfmpegBase.GetName | cgt/io/ffmpegbase.py:86-92 | the file name given at construction |
| RegionLabel.HitsUpToExact | cgt/gui/regiondisplaylabel.py:90-94 | the scan reports exactly the regions containing the point, strictly ascending |
| RegionLabel.ReportedRegions | cgt/gui/regiondisplaylabel.py:87-98 | index 0 reports every containing region in ascending order; index k > 0 reports exactly [k-1] when region k-1 contains the point, and nothing otherwise; a negative index reports nothing |
| RegionLabel.Painted | cgt/gui/regiondisplaylabel.py:112-120 | index 0 paints every region in order; any other index, negative included, paints only index - 1 |
| RegionLabel.CrossArms | cgt/gui/regiondisplaylabel.py:139-145 | the cross arms are horizontal and vertical, centred on the given centre point, and reach 5 pixels to either side |
| RegionLabel.RegionDisplayLabel.constructor | cgt/gui/regiondisplaylabel.py:56 | a new label has index -1 |
| RegionLabel.RegionDisplayLabel.DisplayRectangle | cgt/gui/regiondisplaylabel.py:65-72 | the index becomes the given one and the label repaints |
| RegionLabel.RegionDisplayLabel.MousePressEvent | cgt/gui/regiondisplaylabel.py:74-98 | a press while playing or with another button emits nothing; otherwise the reported regions are appended to the emitted ones |
| RegionLabel.RegionDisplayLabel.PaintEvent | cgt/gui/regiondisplaylabel.py:100-120 | the regions drawn are those Painted gives for the current index |
| Project.DefaultEntriesShape | cgt/CrystalGrowthTrackerMain.py:98-170 | a fresh project has frame rate 8, resolution 10 and units "microns", no full path, and `None` for every other key |
| Project.NewProjectKeepsOthers | cgt/CrystalGrowthTrackerMain.py:172-183 | `init_new_project` sets prog "CGT", the fixed description, start time, host, address, OS and user, and leaves every other key, the settings included, as it was |
| Project.NewProjectShape | cgt/CrystalGrowthTrackerMain.py:89-183 | the complete dictionary of a newly initialised project |
| Project.NotesRule | cgt/CrystalGrowthTrackerMain.py:440 | notes are recorded exactly when they are given and hold a non-whitespace character |
| Project.SelectedRegion | cgt/CrystalGrowthTrackerMain.py:491-504 | `None` exactly when there are no regions or the index is negative, otherwise the region at the index |
| Project.WindowTitle | cgt/CrystalGrowthTrackerMain.py:526-532 | "<name> - No project" without a project, "<name> - <proj_name>" with one, and no title when proj_name is not a string |
| Project.StartedEntriesShape | cgt/CrystalGrowthTrackerMain.py:398-465 | every key of a started project: name, directory and full path; videos copied, referenced or left; notes only when not blank; video file names; frame rate 8, resolution 10, units "nm"; the identity, start, host, user and results unchanged |
| Project.StartMessagesRule | cgt/CrystalGrowthTrackerMain.py:402-450 | a start shows no warning exactly when every requested copy and the notes write succeed; otherwise there is exactly one copy warning per failed copy, and exactly one notes warning when the notes write fails, placed last |
| Project.CGTProject.constructor | cgt/CrystalGrowthTrackerMain.py:89-170 | the dictionary is the default one |
| Project.CGTProject.InitNewProject | cgt/CrystalGrowthTrackerMain.py:172-183 | the dictionary becomes NewProjectEntries of the old one |
| Project.CrystalGrowthTrackerMain.constructor | cgt/CrystalGrowthTrackerMain.py:206-220 | a new window has no project and the "No project" title |
| Project.CrystalGrowthTrackerMain.GetResult | cgt/CrystalGrowthTrackerMain.py:288-298 | `None` exactly when there is no project, otherwise the project's results entry |
| Project.CrystalGrowthTrackerMain.SetTitle | cgt/CrystalGrowthTrackerMain.py:516-532 | the title becomes WindowTitle of the translated name and the project name; it is left unchanged when composing it fails |
| Project.CrystalGrowthTrackerMain.StartProject | cgt/CrystalGrowthTrackerMain.py:359-468 | an existing path leaves the project unchanged and adds a message; otherwise a fresh project replaces it; a failed mkdir leaves it newly initialised with a message; a success gives StartedEntries and StartMessages |
| Project.CrystalGrowthTrackerMain.FillNewProject | cgt/CrystalGrowthTrackerMain.py:398-465 | after mkdir the dictionary becomes StartedEntries of the new project's, and the messages grow by StartMessages |
| Project.CrystalGrowthTrackerMain.PlaceVideos | cgt/CrystalGrowthTrackerMain.py:402-438 | the videos are recorded as VideoEntries says, with one warning per failed copy |
| Project.CrystalGrowthTrackerMain.RecordNotes | cgt/CrystalGrowthTrackerMain.py:440-450 | notes that are not blank are recorded, with a warning when the notes file cannot be written |
| Utils.MakeReportFileNames | cgt/util/utils.py:27-41 | the report directory is the project path plus "report"; "report.html" and "results_hash.json" are direct children of it, and the two files differ |
| Utils.OsName | cgt/util/utils.py:53-82 | "linux"/"linux2" map to "Linux", "darwin" to "Mac OSX", "win32"/"win64" to "Windows", and every other platform to "undetermined", in both directions |
| Text.NatToString | cgt/gui/resultswidget.py:116 | `str(i)` is a non-empty digit string without a leading zero |
| Text.ParseNat | cgt/io/ffmpegbase.py:69 | a number is read exactly from a non-empty digit string |
| Text.ParseNatToString | cgt/gui/resultswidget.py:116 | printing a number and reading it back gives the number |
| Text.Split | cgt/io/ffmpegbase.py:68 | `split` gives at least one piece, and no piece contains the separator |
| Text.JoinSplit | cgt/io/ffmpegbase.py:68 | joining the pieces of a split with the separator gives the string back |
| Text.SplitJoin | cgt/io/ffmpegbase.py:68 | splitting a join of separator-free pieces gives the pieces back |
| Paths.Components | cgt/CrystalGrowthTrackerMain.py:381 | the components of a string are exactly its '/'-pieces other than "" and "." |
| Paths.Keep | cgt/CrystalGrowthTrackerMain.py:381 | the kept pieces are exactly the pieces other than "" and ".", never more of them |
| Paths.KeepAppend | cgt/CrystalGrowthTrackerMain.py:381 | dropping "" and "." distributes over concatenation, so the kept pieces stay in order |
| Paths.KeepOne | cgt/CrystalGrowthTrackerMain.py:381 | a single piece is kept exactly when it is neither "" nor "." |
| Paths.ComponentsOfJoin | cgt/CrystalGrowthTrackerMain.py:381 | a string written as '/'-joined pieces contributes exactly its kept pieces, in order |
| Paths.RFind | cgt/CrystalGrowthTrackerMain.py:454 | the index found is the last occurrence of the character, -1 when there is none |
| Paths.Stem | cgt/CrystalGrowthTrackerMain.py:452-460 | the stem is the file name without its final suffix: it is shorter exactly when a '.' lies strictly inside the name and the name does not end in '.', and then it stops at the last '.' |
| Paths.StemDropsSuffix | cgt/CrystalGrowthTrackerMain.py:452-460 | "clip.avi" gives "clip" and "archive.tar.gz" gives "archive.tar" |
| Paths.StemKeepsName | cgt/CrystalGrowthTrackerMain.py:452-460 | ".bashrc", "notes." and "README" are kept whole |
| Paths.JoinPlainName | cgt/util/utils.py:37-39 | joining a single plain name appends that component, so the result's name is the name and its parent is the original path |

## Left out

- Rendering is not modelled: Qt scenes, pixmaps, painters, zoom transforms, pens and colours, pyqtgraph plotting, fonts and legends. The region pixmap crop in `display_image` goes with it. The scene keeps only the cloned markers.
- The velocities calculator and the results store are not part of this model. `calculate_speeds` is modelled up to the region filter, and the calculator is an abstract function of the region's families; the frame rate and resolution it is built with are part of it. `get_regions`, `get_lines`, `get_points`, `get_lines_for_region` and `get_points_for_region` appear as the values they return.
- Results.ResultsWidget.constructor: the graph widget, the scene and the UI layout are not modelled, so the table's shape before `setup_display` is left open. Qt signal connections, such as a combo box index change calling `show_results`, are not modelled either.
- Results.ResultsWidget.SetupDisplay: a previous combo box index at or beyond the number of regions makes `display_region` raise IndexError in the source, after the table and graph are drawn. Here that is a precondition.
- Results.ResultsWidget.DisplayImage: without a displayed region the source raises AttributeError when it reads the region's rectangle. Here that is a precondition.
- Results.InRegion: every family must have a first marker, because the source reads `marker[0]` and raises IndexError on an empty family. Here that is a precondition: the results store, which is not part of this model, is assumed never to hold an empty family.
- Results.CalculateSpeeds: the same non-empty-family precondition as Results.InRegion.
- Results.Firsts: the same non-empty-family precondition as Results.InRegion, for `display_region`'s `marker[0]`.
- Results.ResultsWidget.ShowResults: the same non-empty-family precondition, and an index inside the region list.
- Results.ResultsWidget.FillTable: the same non-empty-family precondition, through `calculate_speeds`.
- Results.ResultsWidget.DrawGraphOfRegion: the same non-empty-family precondition, through `calculate_speeds`.
- Results.Displacements: the running sums are exact reals, where the source adds floats. Rounding is not modelled. The same holds for Results.SeriesSteps, Results.SumLengthsAppend and Results.CumulativeSeries.
- RegionLabel.ReportedRegions: a positive index past the region list is a precondition. The source passes `index - 1` to the results store's `get_region`, which is not part of this model, and what that call does for a missing region is not visible.
- RegionLabel.Reported: the same positive-index precondition as RegionLabel.ReportedRegions.
- RegionLabel.RegionDisplayLabel.MousePressEvent: the same positive-index precondition as RegionLabel.ReportedRegions.
- RegionLabel.CrossArms: the centre is an input. The source takes it from `rectangle_properties` of the zoomed rectangle, which is not part of this model.
- Project.SelectedRegion: works on the region list itself. With no project, `get_selected_region` raises TypeError on `None["results"]`, and that case is not modelled, because the results store is opaque here. An index at or beyond the number of regions raises IndexError in the source; here that is a precondition.
- Results.ResultsWidget.FillTable: the written rows are all kept. In Qt, `setItem` ignores rows at or beyond the row count of 10, so only the first ten rows are visible. That display effect is not modelled.
- Results.LabelText: `self.tr` translation is not modelled. The `:.2f` and `str` formatting of table cells is not modelled either; rows hold the numbers.
- Ffmpeg.CodecFrameRate: `float()` is modelled on unsigned decimal digit strings only. Signs, decimal points, exponents and whitespace are read as "not a number", and IEEE rounding is replaced by exact reals.
- Ffmpeg.FfmpegBase.ProbeVideo: a missing key in the probe data (KeyError) is not modelled, because streams are records with every field present. `ffmpeg.probe` is an input.
- Markup.ArtifactMarkupWidget.Display: the seconds display `display_number / fps` is left out. That includes its ZeroDivisionError for a zero fps, the frame-label text and the zoomed pixmap. A zero video length while playing is a precondition, where the source raises ZeroDivisionError.
- The prints in `display` and `start_project` and the `display_properties` call are left out (console and dialog output).
- Socket lookups, `datetime.now()` and `getpass.getuser()` are parameters: the host, address, time stamp and user. So is the operating-system name: `init_new_project` takes it from `cgt.utils.find_hostname_and_ip`, whose module is not part of this model. The platform mapping of `cgt/util/utils.py` is modelled on its own, as Utils.OsName, and the model does not assume that the two agree.
- Copying the videos, creating the directory, writing the notes file, `path.exists()` and the message boxes are inputs or recorded messages, and their texts are not kept. The notes file name is computed in the source but not stored, so it is not modelled.
- In `start_project`, the second `except Error` clause names something undefined. It is unreachable for the I/O errors that the first clause catches, and it is not modelled. The unused result of `os.path.split(processed)` is also not modelled.
- Project.CrystalGrowthTrackerMain.SetTitle: the TypeError raised when `proj_name` is not a string is modelled as `ok == false` with the title unchanged, not as an exception.
- Results.ResultsWidget.DisplayRegion: an index outside the region list raises IndexError in the source. Here that is a precondition, as is the non-empty-family rule of Results.InRegion.
- Project.CrystalGrowthTrackerMain.GetResult: the source tests the dictionary's truthiness. A `CGTProject` always has keys, so this is modelled as "a project exists".
- The project dictionary's key insertion order is not modelled, since keys are record fields. Neither are keys added outside the modelled operations, nor the results store held under "results", which is an opaque identifier.
- `save_project`, `load_project` (both definitions), `reload_results`, `save_results`, the CSV readers and writers, and translator loading are not modelled: they are file I/O, dead duplicates or not visible.
- Paths: only the POSIX flavour of `pathlib` is modelled. Windows drive letters, `..` and symlinks are not.
- Cross-thread frame delivery and the Qt signal machinery are not modelled. Emitted signals are appended to sequence fields.
