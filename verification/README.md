# Site observation report generator: a Dafny model of its core

The application is a single Streamlit script (`app.py`). A user uploads site
photographs and fills in the weather, a list of subcontractors and a list of
work areas. The script then builds a Word report: a title, a block of
labelled fields, the two lists, one page break, and the photographs. Most of
the script is UI and library calls. This project models the logic underneath
them and proves what it does:

- **Sort key** (`SortKey`, `sort_key.dfy`). `extract_number` reads the first
  maximal run of digits in a file name as a number. A name with no digit
  gets a key that ranks above every number. The source uses `float('inf')`
  for that key; the model uses `Option<nat>` with `None` ranked highest.
- **Upload order** (`UploadOrder`, `upload_order.dfy`). The upload list is
  sorted in place by that key. The sort is stable, as Python's `list.sort`
  is. `SortByKey` is an in-place insertion sort on an array. It is proved
  sorted, stable (for every key, the files with that key keep their relative
  order) and a permutation of its input.
- **Line splitting** (`TextLines`, `text_lines.dfy`). The text boxes are
  split with `str.split("\n")`. This gives one entry per line, empty lines
  included, and joining the entries with newlines gives back the text.
- **Report body** (`Report`, `report.dfy`). The python-docx document is a
  `Document` class whose `elements: seq<Element>` field grows one append at a
  time. `GenerateReport` makes the same calls in the same order as
  `generate_report`. It is proved to produce `Layout(...)`, a plain
  description of the whole body. Lemmas about `Layout` then state the field
  order, the list bullets, the single page break and the order of the
  pictures.
- **Button handler** (`App`, `app.dfy`). `OnGenerate` models the "Generate
  Report" handler. With no uploads it shows only a warning. Otherwise it
  sorts, normalises each file into a temporary image and builds the report.

Image files are opaque tokens (`Images`, `images.dfy`). A normalised image
records the file it came from and the size bound and quality it was encoded
with.

The heading comment at app.py:80-81 says two images per page with no forced
page breaks, and the picture loop at app.py:82-90 adds no page break (the
spacing paragraph between pairs at app.py:93 is commented out).
`LayoutPageBreak` proves there is exactly one page break, and
`Document.PlacePictures` adds none.

## Model

| member | source | states |
|---|---|---|
| `SortKey.FirstDigit` | app.py:17 | the index it returns is the first position at or after `from` holding a digit, or the end of the name if no such position exists |
| `SortKey.RunEnd` | app.py:17 | the regex group `\d+` is greedy: every character from `from` up to the returned index is a digit, and the character at that index (if any) is not |
| `SortKey.ExtractNumber` | app.py:16-18 | the key is `None` (the infinity sentinel) exactly when the name contains no digit; otherwise it is the decimal value of the first maximal run of digits |
| `SortKey.FirstMaximalRunUnique` | app.py:17 | a name has only one first maximal run of digits, so the value `ExtractNumber` returns is determined |
| `SortKey.DecimalValue` | app.py:18 | the value `int()` reads from a run of digits is 0 exactly when every digit is `0` |
| `SortKey.LeadingZeroIgnored` | app.py:18 | prepending a `0` to a digit run does not change its decimal value, as `int()` ignores leading zeros |
| `SortKey.KeyOfFirstRun` | app.py:16-18 | a name made of a digit-free prefix, a run of digits and a rest not starting with a digit has that run's value as its key |
| `SortKey.LeadingZeroInName` | app.py:16-18 | inserting a `0` just before a name's first run of digits leaves its key unchanged, so names such as `img007` and `img7` get equal keys |
| `SortKey.KeyLe` | app.py:18 | the key order of Python's `<` on `int` and `inf`: numbers compare by value, the no-digit key ranks above every number, and every key is at or below itself |
| `SortKey.NoKeyRanksHighest` | app.py:18 | the no-digit key ranks at or above every key, and at or below only itself |
| `SortKey.KeyLeTotalOrder` | app.py:18 | comparing keys (`int < inf`, `inf == inf`) is reflexive, total, antisymmetric and transitive |
| `SortKey.ExtractNumberExamples` | app.py:16-18 | `img10.jpg` gets key 10, `img3_v2.jpg` gets key 3 (only the first run counts), and `cover.jpg` gets the no-digit key |
| `UploadOrder.FileKey` | app.py:120 | a file's sort key is the no-digit key exactly when its name has no digit, and otherwise the value of its name's first run of digits |
| `UploadOrder.SwapDistinctKeysKeepsOrder` | app.py:120 | swapping two neighbouring items whose keys differ keeps, for every key, the order of the items with that key |
| `UploadOrder.SameOrderPerKeyIsPermutation` | app.py:120 | if every key keeps the order of its items, then the two lists hold the same items the same number of times |
| `UploadOrder.NoDigitFilesLast` | app.py:120 | in a list sorted by file key, every file after a no-digit file also has no digit, so files with digits come first |
| `UploadOrder.InsertIntoSortedPrefix` | app.py:120 | one insertion pass leaves `a[..i+1]` sorted by key, leaves every item after index `i` where it was, and keeps the per-key order of the whole array |
| `UploadOrder.SortByKey` | app.py:120 | the sort in place leaves the array sorted by key, stable, and a permutation of the uploaded list |
| `TextLines.SplitLines` | app.py:108-109 | splitting a text gives one more entry than it has newlines, and no entry contains a newline |
| `TextLines.SplitThenJoin` | app.py:108-109 | joining the split entries with `"\n"` gives back the original text |
| `TextLines.JoinThenSplit` | app.py:108-109 | splitting newline-free entries joined with `"\n"` gives back those entries, so split and join are inverses |
| `TextLines.BlankLineKept` | app.py:108 | two lines separated by an empty line (such as `"Acme Co\n\nBeta Inc"`) split into three entries, and the middle one is empty |
| `TextLines.EmptyTextGivesOneEntry` | app.py:108-109 | an empty text box still gives one entry, the empty string |
| `Report.WithRunAdded` | app.py:51-55 | adding a run changes only the last paragraph: its runs gain the new run at the end, and its style and alignment stay the same |
| `Report.LastCentered` | app.py:84-85 | setting the alignment changes only the last element, which becomes centred |
| `Report.PicturesOfPlates` | app.py:82-90 | the plates hold exactly the given images, once each and in list order |
| `Report.LayoutPageBreak` | app.py:78-90 | the body has exactly one page break, right after the last area bullet (or the areas heading when the list is empty); everything before it is a paragraph and everything after it is a picture |
| `Report.LayoutPictures` | app.py:82-90 | the pictures of the body are exactly the images, in list order, each one centred and placed right after the page break |
| `Report.LayoutFields` | app.py:33-67 | title, blank line, then Project, Name, Email, Review Date, Report Date, Address and Conditions, each a bold `label: ` run followed by a value run; both dates are `today` and the conditions read `weather + " °C"`; then a blank line |
| `Report.LayoutLists` | app.py:70-76 | each heading is followed by one `"    - " + entry` bullet per list entry, in order |
| `Report.Document.constructor` | app.py:30 | a new document is empty |
| `Report.Document.AddParagraph` | app.py:38 | a paragraph is appended, holding a run only when its text is non-empty |
| `Report.Document.AddRun` | app.py:51-55 | a run is appended to the last paragraph and nothing else changes |
| `Report.Document.CenterLast` | app.py:85 | the last element becomes centred and nothing else changes |
| `Report.Document.AddPageBreak` | app.py:78 | exactly one page break is appended |
| `Report.Document.AddPicture` | app.py:84 | exactly one picture of the given image is appended |
| `Report.Document.AddField` | app.py:49-57 | exactly one field paragraph is appended: a bold `label: ` run followed by the value run |
| `Report.Document.AddBullets` | app.py:71-76 | one bullet paragraph is appended per entry, in order |
| `Report.Document.PlacePictures` | app.py:82-90 | the loop appends one centred picture per image, in list order, and nothing else (no page break); it runs ceil(N/2) times |
| `Report.GenerateReport` | app.py:29-101 | the fresh document's body is exactly `Layout(images, weather, subcontractors, areas, today)` |
| `App.NormalizeUploads` | app.py:122-127 | the temporary images are exactly `NormalizedImages` of the uploaded list: one per file, made from that file and in the same order |
| `App.OnGenerate` | app.py:114-129 | no uploads gives only the warning; otherwise the uploads are sorted stably and by key, and the report body is the layout of their normalised images and the split text boxes |
| `App.PicturesFollowUploadOrder` | app.py:120-129 | the report has one picture per sorted upload, and the k-th picture comes from the k-th sorted file |
| `App.BulletsFromText` | app.py:71-76 | a text box with n newlines gives n + 1 bullets, each the bullet prefix followed by its line, and the lines join back to the text |

## Left out

- Streamlit UI (page config, widgets, spinner, success/warning rendering, download button): UI event-loop code. The widget bounds on the size bound [500, 5000] and the quality [1, 100] are recorded as `OnGenerate`'s precondition.
- `resize_image` and `img.save` (decode, EXIF transpose, RGB conversion, thumbnail, JPEG encoding): image-library code. An image is an opaque `NormalizedImage` token. Normalisation is treated as total, so a file the library cannot decode, which raises an exception in the source, is not modelled.
- Temporary files: the model keeps the normalised image in place of the file path. That the files are never deleted is not modelled.
- `doc.save` into a `BytesIO` stream: serialisation is library code. `OnGenerate` returns the body's element list instead of the bytes.
- Fonts (Calibri), point sizes, and picture width and height: styling attributes. Alignment is kept as `centered`, and the bold flag on runs is kept.
- `date.today().strftime(...)`: reads the clock. The formatted date is the parameter `today`.
- `SortKey.ExtractNumber`: only the ASCII digits `'0'..'9'` count as digits. Python's `\d` and `int()` also accept other Unicode decimal digits.
- `max_dim` and `quality` are passed to `generate_report`, but it does not use them. `GenerateReport` does not take them.
- `UploadOrder.SortByKey`: Python computes each key once and then sorts with Timsort. The model sorts by insertion and calls the pure key function at each comparison. It proves the same sorted, stable and permutation guarantees. It does not prove that these guarantees fix the result uniquely.
- `doc.add_page_break()` and `doc.add_picture(...)` each add a paragraph in python-docx, holding a break or a picture run. The model records them as separate `PageBreak` and `Picture` elements, and the centring that the source sets on the picture's paragraph is kept on the `Picture` element.
- `Report.Document.AddRun`: setting `run.bold` right after `add_run` is folded into the one call.
- The paragraph object that `add_field` and the title code write into is modelled as the last element of the body. In this code it always is.
