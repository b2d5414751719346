# Lattice WP All Export Functions, modelled in Dafny

The plugin is a set of helper functions for a WordPress data-export editor.
They turn raw codes and identifiers from shop orders and learning-platform
records into text for an export file. This project models those helpers as
pure Dafny functions and methods, and proves properties about them:

- **The progress report** (`get_courses_and_lessons`). It starts from an
  already decoded collection of course progress records, given as an ordered
  `seq<(int, Record)>`. For each course it writes a text block:
  - a `Course:` line and a `Lessons Progress:` heading;
  - one `name: Completed` or `name: Not Started` line per lesson;
  - `Total Lessons:`, `Completed Lessons:` and `Status:` lines;
  - a `Timestamp:` line, only when the record has a timestamp;
  - an empty separator line.

  Course and lesson titles come from lookup functions passed as parameters,
  which return `None` when there is no such post. A missing title becomes
  `Unknown Course` or `Unknown Lesson`.
- **The status tables** `course_status` and `wc_order_status`. Each is a
  closed table of codes; any other input is returned unchanged.
- **Timestamp validation** (`convert_timestamp_to_human_readable`). Empty and
  non-numeric inputs give `""`. Other inputs are cast to a 64-bit integer; a
  negative result gives `""` and any other is rendered as a date. The date rendering is a function
  parameter (`DateFormatter`).
- **The small selectors**:
  - `get_user_in_group`: the first of five fixed groups the user belongs
    to, or `None`. Group membership is a predicate parameter.
  - `set_of_books_id`: the legal entity for a billing country.
  - `get_net_amount`: the order total minus the fee, where an empty fee
    counts as 0.
  - `get_download_count`: the stored count, or 0 when it is missing, empty
    or not numeric (only integer strings count as numeric here).

PHP scalars are modelled by `PhpValues.Value` (`Int` of 64-bit range, `Str`,
`Bool`). An absent or null entry is `Option.None`. The module also models the
three language operations the helpers depend on:

- `empty()`: true for `0`, `""`, `"0"` and `false`;
- `is_numeric()`, restricted to integers and integer strings (an optional
  sign followed by digits);
- the `(int)` cast. A numeric string too long for 64 bits is read as a
  double and capped at `PHP_INT_MAX`/`PHP_INT_MIN`. A numeral of 2^1024 - 2^970
  or more in magnitude overflows the double to infinity, and then casts to 0.

String interpolation of integers is modelled by `Decimal.IntToDecimal`,
which is proved to read back as the integer it renders.

Modules and files:

| file | module | models |
|---|---|---|
| wrappers.dfy | Wrappers | `Option` for absent/null entries and failed lookups |
| decimal.dfy | Decimal | decimal text of integers and its parse |
| php_values.dfy | PhpValues | PHP scalars, `empty`, `is_numeric`, `(int)`, interpolation |
| status_labels.dfy | StatusLabels | `course_status`, `wc_order_status` |
| commerce.dfy | Commerce | `set_of_books_id`, `get_net_amount` |
| groups.dfy | Groups | `get_user_in_group` |
| timestamps.dfy | Timestamps | `convert_timestamp_to_human_readable` |
| downloads.dfy | Downloads | `get_download_count`, after its query |
| text_lines.dfy | TextLines | newline-terminated text, split and join |
| progress_report.dfy | ProgressReport | `get_courses_and_lessons`, `get_course_name`, `get_lesson_name` |

### Two consequences of the code worth knowing

- **Zero timestamp.** A record whose timestamp is 0 prints `Timestamp: `
  with nothing after it, because `empty(0)` is true (functions.php:146).
  It does not print the epoch date. `ProgressReport.ZeroTimestampScenario`
  shows this on a one-course example.
- **Missing `lessons` entry.** A record without a `lessons` entry emits no
  lesson lines (functions.php:245): the loop runs over null, PHP warns, and
  the block goes on. The model gives such a record `lessons == []`.

## Model

| member | source | states |
|---|---|---|
| StatusLabels.CourseStatus | functions.php:112-126 | each code in the three-entry course table (`completed`, `in_progress`, `not_started`) gives its label (`Completed`, `In-progress`, `Not Started`); every other string is returned unchanged; the result is never one of the three codes |
| StatusLabels.CourseStatusIdempotent | functions.php:112-126 | no course label is also a code, so applying the table to its own output changes nothing |
| StatusLabels.OrderStatus | functions.php:16-42 | each of the six `wc-*` order codes gives its label; every other string is returned unchanged; the result is never one of the six codes |
| StatusLabels.OrderStatusIdempotent | functions.php:16-42 | no order label is also a code, so applying the table twice is the same as applying it once |
| Commerce.SetOfBooksId | functions.php:56-64 | the result is the US corporation exactly when the country is `US`, and the Singapore entity exactly otherwise |
| Commerce.NetAmount | functions.php:95-104 | an empty fee leaves the total unchanged; otherwise adding the fee back to the result gives the total |
| Groups.FirstMatch | functions.php:213-223 | the result is absent exactly when no entry matches; otherwise it is the label of a matching entry with no matching entry before it |
| Groups.UserGroupLabel | functions.php:206-224 | each of the five labels is returned exactly when the user is in that group and in none of the groups checked before it (539, 1494, 1496, 1502, 1505 in that order); the result is absent exactly when the user is in none of them |
| PhpValues.StringCast | functions.php:151 | an in-range value is kept; beyond the 64-bit range it is capped at PHP_INT_MAX/PHP_INT_MIN; a magnitude of 2^1024 - 2^970 or more gives 0 |
| Downloads.DownloadCount | functions.php:305-321 | a missing or empty stored count, or one that is not an integer or integer string, gives 0; an integer is kept; a numeric string gives its value when that fits in 64 bits, PHP_INT_MAX or PHP_INT_MIN beyond that, and 0 when it overflows a double |
| Downloads.StoredCountReadsBack | functions.php:316-320 | a count stored as the decimal text of a 64-bit integer is reported as that integer |
| Timestamps.ValidatedTimestamp | functions.php:144-156 | an integer is accepted exactly when it is positive, and then as itself, so 0 is rejected; booleans, `""`, `"0"` and non-numeric strings are rejected; any other numeric string is rejected when its value is negative and within the double range; otherwise it is accepted as its value when that fits in 64 bits, as PHP_INT_MAX when it is larger, and as 0 when its magnitude overflows a double |
| Timestamps.ConvertTimestamp | functions.php:144-159 | `0`, `"0"`, `""`, negative integers, booleans, non-numeric strings and negative numeric strings within the double range give `""`; a positive integer gives its rendered date; any other numeric string gives the date of its value, of PHP_INT_MAX when the value is larger, or of 0 when it overflows a double |
| Timestamps.StringTimestampAgreesWithInt | functions.php:146-156 | the decimal string of an in-range integer is validated exactly like the integer itself |
| Timestamps.OversizedStringTimestampSaturates | functions.php:151-156 | a numeric string above PHP_INT_MAX but below 2^1024 - 2^970 is capped by the cast and accepted as PHP_INT_MAX, not rejected |
| Timestamps.InfiniteStringTimestampIsEpoch | functions.php:146-158 | a numeric string of magnitude 2^1024 - 2^970 or more, of either sign, casts to 0 and is rendered as the epoch |
| Timestamps.OtherZeroSpellingsAreFormatted | functions.php:146-158 | only `"0"` counts as an empty zero: `"00"` and `"-0"` pass every check and are rendered as the epoch |
| ProgressReport.LessonLineStatus | functions.php:245-248 | a lesson line starts with the lesson name and `: `; it ends in `: Completed` exactly when the flag is set and in `: Not Started` exactly when it is not |
| ProgressReport.LessonLines | functions.php:245-249 | one line per lesson, in lesson order, each naming its lesson (or `Unknown Lesson` when the title lookup fails) with its progress word |
| ProgressReport.TailLayout | functions.php:251-269 | a missing total or completed count prints `0`; a missing status prints `Status: ` with nothing after it; a string status goes through the course table; a `Timestamp:` line appears exactly when the record has a timestamp and holds its converted text; the block ends with the only empty line |
| ProgressReport.BlockLayout | functions.php:239-269 | a block has 6 lines plus one per lesson plus one for a timestamp: the course line (title or `Unknown Course`), the heading, the lesson lines in order, then the tail lines; its only empty line is the last |
| ProgressReport.UnknownTitleFallback | functions.php:281-297 | a course whose title cannot be found still gets a full block headed `Course: Unknown Course`; a lesson whose title cannot be found is reported as `Unknown Lesson: ` plus its progress word |
| ProgressReport.BlockTextShape | functions.php:239-270 | each block's text starts with `Course: <name>` and `Lessons Progress:` lines and ends with a blank line |
| ProgressReport.ReportAppend | functions.php:238-272 | the report of two collections laid end to end is their two reports laid end to end, so blocks appear in collection order |
| ProgressReport.ReportBlockAt | functions.php:238-272 | the block of course k lies between the blocks of the courses before it and those after it |
| ProgressReport.OneSeparatorPerCourse | functions.php:238-270 | the report's lines contain exactly one empty line per course |
| ProgressReport.ReadBackReport | functions.php:232-273 | if no title, value or date contains a newline, splitting the report text into lines gives back exactly its lines, with one blank line per course |
| ProgressReport.ZeroTimestampScenario | functions.php:264-266 | for a one-course record with timestamp 0, the report's lines are the course, the two lessons, the counts, `Status: In-progress`, an empty `Timestamp: ` line and the separator |
| ProgressReport.AppendLessons | functions.php:245-249 | the lesson loop appends exactly the lesson lines, in order, each followed by a newline |
| ProgressReport.AppendTail | functions.php:251-269 | the statements after the lesson loop append exactly the tail lines: counts, status, the optional timestamp and the separator |
| ProgressReport.AppendBlock | functions.php:239-270 | one iteration of the course loop appends exactly that course's block |
| ProgressReport.CoursesAndLessons | functions.php:232-273 | appending line by line over the collection produces exactly the report: each course's block, in collection order |

## Left out

- `unserialize_data` and the `unserialize` call inside
  `get_courses_and_lessons` (functions.php:134-136, 234): these are PHP's
  native deserialisation. The model starts from the decoded collection. A
  payload that fails to decode gives `false` in PHP, and that case is not
  modelled.
- The `date('Y-m-d H:i:s', …)` rendering (functions.php:158) depends on the
  time zone. It is the `DateFormatter` parameter.
- The `$timestamp > PHP_INT_MAX` test (functions.php:154) cannot hold after
  the `(int)` cast. The model's `Int64` range makes this explicit.
- `get_post` (functions.php:282, 294) looks the post up, and `is_wp_error`
  tests the result for an error object. Together with the truthiness test
  they are the `courseTitle` and `lessonTitle` parameters, where `None`
  stands for "no post or an error".
- `learndash_is_user_in_group` is the `isUserInGroup` parameter of
  `Groups.UserGroupLabel`.
- `get_product_description` (functions.php:77-83) reads a product through
  the shop platform and returns its description, or `''` when there is no
  product. It is a lookup with no logic of its own to prove.
- `get_users_enrolled_by_course` (functions.php:167-190) asks the learning
  platform for the course's user ids and collects the email of every user
  whose record loads; users whose record fails to load are dropped. It
  returns the emails joined by `, `, or `'No users enrolled in this
  course.'` when none remain. Every step depends on platform records the
  model cannot see.
- `get_total_users_enrolled_by_course` (functions.php:197-204) is the
  `count` of the same user-id list.
- The query in `get_download_count` (functions.php:308-313) reads the
  database. `Downloads.DownloadCount` starts from the value it returns, with
  `None` for no row.
- Commerce.NetAmount: uses exact `real` arithmetic, not PHP floats. A
  non-empty, non-numeric fee string, which makes PHP 8 throw, is not
  modelled.
- Timestamps.ValidatedTimestamp: treats only integer strings (an optional
  sign followed by digits) as numeric. PHP's `is_numeric` also accepts
  surrounding whitespace, fractions and exponents; the model rejects those
  strings as non-numeric.
- Timestamps.ConvertTimestamp: inherits that restriction, so a string such as
  `" 5"`, `"0.0"` or `"1e3"` gives `""` where PHP casts it and renders the
  date of the cast value. The progress report's `Timestamp:` line inherits it
  too.
- Downloads.DownloadCount: inherits the same restriction, so a stored count
  such as `"3.5"`, `" 7"` or `"1e3"` gives 0 where PHP casts it to 3, 7 or
  1000.
- PhpValues.Value has no floats, arrays or objects. A lesson's completion
  flag is a `bool` rather than an arbitrary PHP value tested for
  truthiness.
- Course and lesson ids are integers. The model does not require the
  decoded collection's course ids to be distinct, since the formatter does
  not depend on it.
