# docker-pretty-images in Dafny

`docker-pretty-images` is a small command-line tool that reprints the local
image list of a container engine. It runs the engine's image listing, which
prints one JSON record per line. Unless `--all` is given, it drops dangling
images, meaning those whose repository or tag is `<none>`. It gives each image
a colour from a fixed six-colour palette, chosen by its position in the list.
It asks the engine, once per image, whether any container was made from it.
Then it prints a report:

- a header;
- per image, a blank line and a coloured `repository:tag` heading;
- in detail mode, four labelled lines: Image ID, Created, Size, and State (`[In Use]` or `[Not Used]`);
- a footer with the image count.

`--slim` prints only the headings. `--version` prints one line and does nothing else.

The model has one module per concern:

- `Ansi`: the escape sequences, the palette, the program name and version.
- `Text`: Python's `str.strip()`, `str.splitlines()`, `str.ljust()` and `str(n)`:
  - over code points, with CPython's whitespace and line-break sets;
  - each with lemmas saying what it keeps and removes.
- `Images`: the image record and the dangling-image filter.
- `Engine`:
  - `get_docker_images` and `is_image_in_use`, once the engine's standard output is known;
  - the queries the program makes, as a `Query` value.
- `Annotate`: the two loops that update the surviving list in place. They are
  methods over an `array` of records.
- `Render`:
  - `print_images` and `print_line`, as methods;
  - standard output is a `Stdout` object with one string per `print` call;
  - each method is proved against the function `Report`, which describes the whole report;
  - lemmas locate every line of the report.
- `Cli`:
  - `main` as the method `Run`;
  - the functions `Printed`, `Queries` and `Ending` describe what a run prints, which engine queries it makes, and how it ends;
  - lemmas state the end-to-end properties.

The engine is not run. Each query's standard output is a parameter:

- a string for the image listing;
- a function from image id to the output of `docker ps -a --filter ancestor=<id>` for the usage checks.

The decoding of one JSON line into a record is a parameter `decode` that may fail.

## Model

| member | source | states |
|---|---|---|
| Text.TrimStartSpec | src/docker_pretty_images/__init__.py:54 | `lstrip` keeps a suffix that starts with a non-space character and drops only whitespace before it |
| Text.TrimEndSpec | src/docker_pretty_images/__init__.py:54 | `rstrip` keeps a prefix that ends with a non-space character and drops only whitespace after it |
| Text.StripIsSlice | src/docker_pretty_images/__init__.py:54 | `strip()` returns one contiguous slice of its input; everything around it is whitespace, and the slice begins and ends with non-space |
| Text.StripEmptyIff | src/docker_pretty_images/__init__.py:63 | the stripped text is empty exactly when the input is all whitespace |
| Text.StripIdempotent | src/docker_pretty_images/__init__.py:54 | stripping twice is the same as stripping once |
| Text.FirstBreak | src/docker_pretty_images/__init__.py:54 | the index found is the first line-break character, or the length when there is none |
| Text.SplitLines | src/docker_pretty_images/__init__.py:54 | `splitlines()` yields no lines exactly for the empty string, never more lines than characters, and no line contains a line break; which lines come out is stated by `Text.SplitJoined` |
| Text.SplitTerminated | src/docker_pretty_images/__init__.py:54 | round trip: splitting newline-terminated lines returns those lines |
| Text.TerminatedJoined | src/docker_pretty_images/__init__.py:54 | newline-terminated lines are the lines joined by "\n", plus one final "\n" |
| Text.JoinedEnds | src/docker_pretty_images/__init__.py:54 | the joined text starts with the first line's first character and ends with the last line's last character |
| Text.SplitJoined | src/docker_pretty_images/__init__.py:54 | round trip: splitting lines joined by "\n" gives them back when the last one is non-empty |
| Text.StripSplitTerminated | src/docker_pretty_images/__init__.py:54 | for one record per line, each line ending in "\n", the first starting and the last ending with a non-space character: `strip()` removes exactly the final "\n", and `splitlines()` then gives back exactly those lines, in order |
| Text.LeftJustify | src/docker_pretty_images/__init__.py:101 | `ljust(width)` keeps the string as a prefix, pads with spaces to `width`, and never truncates |
| Text.NatToStringDigits | src/docker_pretty_images/__init__.py:96 | `str(n)` is a non-empty string of decimal digits with no leading zero, except for "0" itself |
| Text.DecimalRoundTrip | src/docker_pretty_images/__init__.py:96 | `str(n)` read back as a decimal number is `n` |
| Images.TaggedCount | src/docker_pretty_images/__init__.py:24-25 | the filter keeps every record that has a real repository and tag, with its multiplicity, and drops every record with `<none>` |
| Images.TaggedMembers | src/docker_pretty_images/__init__.py:25 | a record survives the filter exactly when it was listed and neither its repository nor its tag is `<none>` |
| Images.TaggedAppend | src/docker_pretty_images/__init__.py:25 | the filter distributes over concatenation, so it keeps the listing's order |
| Images.TaggedSingleton | src/docker_pretty_images/__init__.py:25 | on one record, the filter keeps it exactly when it is tagged |
| Images.SurvivorsSpec | src/docker_pretty_images/__init__.py:24-25 | with `--all` the listing passes unchanged; without it every survivor is tagged and every dropped record had `<none>` as repository or tag |
| Engine.ListingLines | src/docker_pretty_images/__init__.py:54 | the stripped and split listing has no lines exactly when the output is all whitespace, and no line contains a break; which lines come out is stated by `Engine.RecordPerLine` |
| Engine.DecodeAll | src/docker_pretty_images/__init__.py:54 | decoding succeeds exactly when every line decodes; then there is one record per line, in order |
| Engine.RecordPerLine | src/docker_pretty_images/__init__.py:49-54 | for a listing of one JSON object per line, the listing lines are exactly those lines, and `get_docker_images` returns one record per line, in order, or fails exactly when some line does not decode |
| Engine.EmptyListing | src/docker_pretty_images/__init__.py:49-54 | an empty or all-whitespace listing yields zero images, not an error |
| Engine.InUseIff | src/docker_pretty_images/__init__.py:57-63 | an image is in use exactly when the `docker ps` output has a non-whitespace character |
| Annotate.ApplyColors | src/docker_pretty_images/__init__.py:66-77 | record i gets colour `Palette[i % 6]`, and nothing else in any record changes |
| Annotate.MarkUsage | src/docker_pretty_images/__init__.py:31-32 | one usage query per record, in list order; each record gets the answer for its own id, and nothing else changes |
| Render.Stdout.Print | src/docker_pretty_images/__init__.py:81 | one `print` call appends exactly its argument to standard output |
| Render.FooterCount | src/docker_pretty_images/__init__.py:96 | the footer is the fixed prefix followed by a decimal string that reads back as the count |
| Render.LabelPrefix | src/docker_pretty_images/__init__.py:101 | the label before padding is 10 characters longer than the title (tab, two escapes, colon) |
| Render.DetailLineShape | src/docker_pretty_images/__init__.py:100-101 | a detail line is the label, spaces up to the width (none if the label is longer), one separating space, then the value |
| Render.StateValueIff | src/docker_pretty_images/__init__.py:92-95 | the State value is the green `[In Use]` exactly when the image is in use, and the red `[Not Used]` exactly when it is not |
| Render.Details | src/docker_pretty_images/__init__.py:89-95 | detail mode prints four labelled lines per image |
| Render.Block | src/docker_pretty_images/__init__.py:83-95 | each image takes 2 lines in slim mode and 6 in detail mode |
| Render.ConcatLength | src/docker_pretty_images/__init__.py:82 | k blocks of m lines each concatenate to `k*m` lines |
| Render.ConcatLine | src/docker_pretty_images/__init__.py:82 | in blocks of m lines, line j of block k is line `k*m + j` |
| Render.BlockListSnoc | src/docker_pretty_images/__init__.py:82 | one more pass of the loop adds that image's block at the end |
| Render.EmptyReport | src/docker_pretty_images/__init__.py:80-96 | with no images the report is just the header and "Total images:\t0" |
| Render.ReportShape | src/docker_pretty_images/__init__.py:80-96 | the report has `2 + n*2` lines in slim mode and `2 + n*6` in detail mode, starts with the header and ends with the footer for n |
| Render.BlocksLine | src/docker_pretty_images/__init__.py:82-95 | line j of image k's block is line `BlockStart(slim, k) + j` of all the image blocks printed by the loop |
| Render.ReportLine | src/docker_pretty_images/__init__.py:82-95 | line j of image k's block is line `1 + BlockStart(slim, k) + j` of the report |
| Render.ReportHeadingLines | src/docker_pretty_images/__init__.py:83-88 | image k's block starts with a blank line followed by its coloured heading |
| Render.ReportDetailLines | src/docker_pretty_images/__init__.py:89-95 | in detail mode, image k's four labelled lines are report lines `3+6k` through `6+6k` |
| Render.ReportDetailLine | src/docker_pretty_images/__init__.py:89-95 | in detail mode, labelled line j of image k is report line `3+6k+j` |
| Render.PrintLine | src/docker_pretty_images/__init__.py:100-101 | `print_line` prints exactly one detail line |
| Render.PrintImage | src/docker_pretty_images/__init__.py:83-95 | one pass of the loop prints exactly that image's block |
| Render.PrintImages | src/docker_pretty_images/__init__.py:80-96 | `print_images` prints exactly `Report`, which is the header, every image's block in list order, then the footer with the number of images |
| Cli.Annotated | src/docker_pretty_images/__init__.py:28-32 | after annotation every record has a colour and a usage flag, so either report mode can print it |
| Cli.Run | src/docker_pretty_images/__init__.py:14-35 | `main` prints exactly `Printed`, makes exactly the queries `Queries`, and ends as `Ending` |
| Cli.ShowImages | src/docker_pretty_images/__init__.py:24-35 | everything after the listing prints the report of the annotated survivors and makes one usage query per survivor |
| Cli.AnnotateAll | src/docker_pretty_images/__init__.py:28-32 | the two in-place loops leave the records described by `Annotated` and query the survivors' ids in order |
| Cli.AnnotationLoops | src/docker_pretty_images/__init__.py:28-32 | colouring then marking each slot gives `Annotated` |
| Cli.PrintedListing | src/docker_pretty_images/__init__.py:21-35 | without `--version`, a decoded listing is printed as the report of its annotated survivors |
| Cli.VersionShortCircuit | src/docker_pretty_images/__init__.py:17-19 | `--version` prints exactly the version line, makes no engine query and completes, whatever the engine would say |
| Cli.MalformedListingAborts | src/docker_pretty_images/__init__.py:21 | a listing line that does not decode ends the run after the listing query, with nothing printed and no usage query |
| Cli.OneUsageQueryPerImage | src/docker_pretty_images/__init__.py:31-32 | the listing query comes first, then exactly one usage query per survivor, in list order |
| Cli.ReportLineCount | src/docker_pretty_images/__init__.py:80-96 | a run prints `2 + 2n` or `2 + 6n` lines for n survivors, opening with the header and closing with "Total images:\t" and n |
| Cli.AnnotatedAt | src/docker_pretty_images/__init__.py:28-32 | annotated record k is survivor k with colour `Palette[k % 6]` and the usage answer for its own id |
| Cli.ImageHeading | src/docker_pretty_images/__init__.py:76-84 | the heading printed for survivor k shows its `repository:tag` in colour `Palette[k % 6]` |
| Cli.ImageDetails | src/docker_pretty_images/__init__.py:89-95 | in detail mode, survivor k's heading is followed by its id, age and size, and by a State line that reads `[In Use]` exactly when `docker ps` named a container for it |

## Left out

- The two `docker` subprocess calls are not modelled. Their standard output is a parameter: `listing` for the image listing, `containers` for the usage check.
- The engine's exit status is not modelled. The source ignores it too.
- A missing `docker` binary is not modelled. In the source it raises `FileNotFoundError`.
- `json.loads` is not modelled. It is the parameter `decode`, which returns `None` for a line it cannot decode, and no JSON grammar is given.
- Every line of the stripped output goes to `json.loads`, including an empty line between two records. In the model such a line goes to `decode` like any other.
- A decoding failure is modelled as the outcome `Failed(MalformedOutput)`, with nothing printed. In the source it is an uncaught exception that ends the process, and Python's traceback is not modelled.
- A record that decodes but lacks one of the fields `Repository`, `Tag`, `ID`, `CreatedSince` or `Size` is not modelled. The modelled `decode` produces complete records or nothing. In the source each missing field raises `KeyError` at its first use:
  - `Repository`, without `--all`: in the filter (line 25), before any usage query and before anything is printed.
  - `Tag`, without `--all`: in the filter (line 25) too, unless the repository is `<none>`. Then the condition stops early, the record is dropped and no error arises.
  - `Repository` or `Tag`, with `--all`: at the heading (line 84). By then every usage query has been made, and the header and the earlier images' blocks are printed.
  - `ID`: in the usage loop (line 32), with or without `--all`, once the record survives the filter. By then the usage queries for the records before it have been made, and nothing is printed yet.
  - `CreatedSince` or `Size`: in detail mode only (lines 90-91), inside `print_images`, after the header, the earlier blocks and the first lines of this image's block. In slim mode these fields are never read.
- `parse_args` is not modelled. `--help`, the usage message and exits on unknown flags belong to Python's `argparse`. The parsed flags are the input `Flags`.
- How a terminal shows the ANSI escape sequences is not modelled. They are fixed strings.
- The newline that `print` appends is not modelled. One `print` call is one element of `Stdout.lines`.
- The records reached through two references (the Python list holds dictionaries by reference) are not modelled. The records are values in an `array`, updated slot by slot. Each decoded dictionary is distinct in the source, so no record is shared.
- `apply_colors_to_images` returns the list it received; in the model `ApplyColors` updates its array in place and returns nothing.
- The exit code of `main` is modelled only as `Outcome`: `Completed` for exit code zero, `Failed` for a fatal error.
