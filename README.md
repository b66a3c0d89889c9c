# muncon utilities: S-parameter uncertainty record, column swap, sample formats

This project models the utility core of muncon, a tool that keeps
network-parameter (S-parameter) measurements together with their full
covariance matrix, in Dafny, and proves properties of the model.

- `UsnpRecord` (usnp.dfy) models the `Usnp` record: a class with the port
  count `p`, the reference impedances `z0`, the frequencies `f`, the
  S-parameter rows `s`, the covariance `v` and the `comments`. Each setter
  states the new value of its field and that every other field keeps its
  value. `SetZ0` follows the reference-impedance rule of `set_z0`. A
  sequence whose length is the port count is kept. Any other non-empty
  sequence becomes `p` copies of its first element. A scalar becomes `p`
  copies of itself. The rule is the function `NormalizeZ0`, and lemmas state
  its cases. The two ways the Python code raises are modelled as errors of
  a `Result`: an empty sequence of the wrong length (`z0[0]`), and a
  negative port count (numpy's `linspace` refuses a negative sample count).
  On an error nothing is stored.
- `SwapColumns` (swap.dfy) models `swap_s12_s21`, an in-place exchange of
  columns 1 and 2 of a two-dimensional array. The method copies column 1,
  as the Python code does, and then writes the two columns row by row. Its
  contract states the final contents of every cell in terms of the old
  array. An array with fewer than three columns makes numpy raise before
  anything is written; the method then reports `false` and leaves the array
  unchanged.
- `SampleFormat` (sample_format.dfy) models `format_sparam`, which converts
  one sample between the Real/Imaginary (RI), Magnitude/Angle (MA) and
  dB/Angle (DB) encodings. Angles are in degrees. `FormatSparam` follows the
  if/elif chain of `format_sparam`. `RouteOf` is an independent dispatch table keyed by
  the pair of tags, and a lemma proves the two agree on every input. Python's
  `None` result is `Option.None`. A missing column header (Python `None` as
  a tag) is the tag `NoHeader`.

The numeric routines `cos`, `sin`, `radians` and `10 ** x` are not given a
value: they are the fields of a `Numerics` record that the caller passes in.
So every property of `FormatSparam` holds whatever these routines compute.

The four unimplemented directions (RI to MA, RI to DB, MA to DB, DB to MA)
end in a bare `return`. A recognised source tag with any other target falls
off the end of the function. Both give Python `None`, modelled as
`Option.None`. `RouteOf` still tells the two apart (`Unimplemented`,
`FallThrough`).

## Model

| member | source | states |
|---|---|---|
| `UsnpRecord.Usnp.constructor` | muncon/utils.py:10-16 | a fresh record has `p == 0` and every sequence (`z0`, `f`, `s`, `v`, `comments`) empty |
| `UsnpRecord.Usnp.SetPorts` | muncon/utils.py:18-19 | afterwards `GetPorts()` is the value set; the other five fields are unchanged |
| `UsnpRecord.Usnp.GetPorts` | muncon/utils.py:21-22 | returns the stored port count |
| `UsnpRecord.Usnp.SetZ0` | muncon/utils.py:24-31 | returns the outcome of the reference-impedance rule `NormalizeZ0` for the old port count; on success the stored `z0` is that value and has one entry per port; on an error `z0` is unchanged; no other field changes |
| `UsnpRecord.Usnp.GetZ0` | muncon/utils.py:33-34 | returns the stored reference impedances |
| `UsnpRecord.Usnp.SetFreqs` | muncon/utils.py:36-37 | afterwards `GetFreqs()` is the value set; the other fields are unchanged |
| `UsnpRecord.Usnp.GetFreqs` | muncon/utils.py:39-40 | returns the stored frequencies |
| `UsnpRecord.Usnp.SetSparams` | muncon/utils.py:42-43 | afterwards `GetSparams()` is the value set; the other fields are unchanged |
| `UsnpRecord.Usnp.GetSparams` | muncon/utils.py:45-46 | returns the stored S-parameters |
| `UsnpRecord.Usnp.SetCovariance` | muncon/utils.py:48-49 | afterwards `GetCovariance()` is the value set; the other fields are unchanged |
| `UsnpRecord.Usnp.GetCovariance` | muncon/utils.py:51-52 | returns the stored covariance |
| `UsnpRecord.Usnp.SetComments` | muncon/utils.py:54-55 | afterwards `GetComments()` is the value set; the other fields are unchanged |
| `UsnpRecord.Usnp.GetComments` | muncon/utils.py:57-58 | returns the stored comments |
| `UsnpRecord.Usnp.AddComment` | muncon/utils.py:60-61 | the comments become the old comments, in their order, followed by the new one; no other field changes |
| `UsnpRecord.Broadcast` | muncon/utils.py:29-31 | `linspace(x, x, n)` has exactly `n` entries and every entry is `x` |
| `UsnpRecord.Z0KeptWhenLengthMatches` | muncon/utils.py:26-27 | a sequence whose length is the port count is stored exactly as given |
| `UsnpRecord.Z0BroadcastsFirst` | muncon/utils.py:28-29 | a non-empty sequence of any other length, shorter or longer, yields `p` entries all equal to its first element |
| `UsnpRecord.Z0ScalarBroadcast` | muncon/utils.py:30-31 | a scalar yields `p` entries all equal to it |
| `UsnpRecord.Z0ErrorCases` | muncon/utils.py:24-31 | the rule raises if and only if the sequence is empty and of the wrong length, or the port count is negative and the value would be broadcast; the index error happens exactly for an empty sequence with `p != 0` |
| `UsnpRecord.Z0StoredLength` | muncon/utils.py:24-31 | whatever the rule stores has exactly `p` entries |
| `UsnpRecord.Z0Idempotent` | muncon/utils.py:24-31 | setting the stored impedances again stores the same value |
| `SwapColumns.SwappedColumnInvolution` | muncon/utils.py:71-75 | the column exchange moves only columns 1 and 2, keeps every column of an array with at least three columns in range, and undoes itself |
| `SwapColumns.SwapS12S21` | muncon/utils.py:71-75 | with at least three columns, column 1 holds the old column 2, column 2 the old column 1, and every other cell is unchanged; with fewer columns it reports failure and changes nothing |
| `SwapColumns.SwapTwiceRestores` | muncon/utils.py:71-75 | swapping twice gives back the original array |
| `SampleFormat.DbToRiIsMaToRi` | muncon/utils.py:92-96 | the DB to RI formula equals the MA to RI formula applied to magnitude `10 ** (d / 20)` and the unchanged angle |
| `SampleFormat.FormatSparamFollowsTable` | muncon/utils.py:78-100 | the if/elif conversion and the dispatch table keyed by the pair of tags give the same result on every input |
| `SampleFormat.FormatIdentity` | muncon/utils.py:79-80 | equal source and target tags return the sample itself |
| `SampleFormat.FormatPassThrough` | muncon/utils.py:99-100 | a source tag other than RI, MA and DB returns the sample itself, whatever the target |
| `SampleFormat.FormatNoneExactly` | muncon/utils.py:81-98 | the result is `None` if and only if the tags differ, the source tag is recognised, and the pair is neither MA to RI nor DB to RI |
| `SampleFormat.FormatUnimplementedDirections` | muncon/utils.py:81-98 | between two recognised tags, `None` comes exactly from RI to MA, RI to DB, MA to DB and DB to MA |
| `SampleFormat.FormatMaToRi` | muncon/utils.py:86-89 | MA to RI gives magnitude times the cosine and the sine of the angle converted to radians |
| `SampleFormat.FormatDbToRi` | muncon/utils.py:92-96 | DB to RI gives MA to RI of the linearised magnitude with the angle unchanged |
| `SampleFormat.FormatNoArithmeticOtherwise` | muncon/utils.py:78-100 | outside MA to RI and DB to RI the result does not depend on the numeric routines, and any sample returned is the input itself, so the identity case does no arithmetic |

## Left out

- `pad_to_2port` (muncon/utils.py:64-68) is not modelled. Its first line takes `len(sparams)[0]`, which indexes an integer, so it always raises.
- Floating point: `*` and `/` are exact operations on reals, and `cos`, `sin`, `radians` and `10 **` are unspecified functions passed in as parameters. No numeric value of a conversion is claimed, and Python's `OverflowError` from a float `10 ** x` with `x` above about 308 (a magnitude above about 6160 dB) is not modelled.
- Aliasing: `set_z0` and `set_comments` keep a reference to the caller's list, so `add_comment` also changes that list. The model stores values and does not capture this sharing.
- `SwapS12S21`: the Python function also returns the same array object it was given; with `array2` the caller already holds it, so only the success flag is returned. One-dimensional and higher-dimensional numpy arrays are not modelled.
- Dynamic typing: the `isinstance` test of `set_z0` is the choice between `Scalar` and `Sequence`; a non-integer port count and arguments of other Python types are not modelled.
- Element types: impedances and S-parameters are complex numbers, frequencies reals, the covariance a matrix of reals and comments strings. The record never interprets them, and numpy dtype conversions are not modelled.
- Samples are pairs of numbers; a Python list of another length, or a scalar such as a frequency value passed through an untagged column, is not modelled.
