# django-machina model fields, modelled in Dafny

`machina/models/fields.py` defines two custom model fields for the Django ORM.

- `MarkupTextField` keeps two columns on a model instance. The raw markup is stored under the field's name. The rendered HTML is cached under `_<name>_rendered`. A descriptor writes both columns when it is assigned a `MarkupText` wrapper. A pre-save hook recomputes the rendered column from the raw one.
- `ExtendedImageField` validates an upload's byte size and pixel dimensions against optional bounds. When a target box is configured, it replaces the upload with a resized PNG whose name is derived from the original.

The model has four modules:

- `Wrappers` (`wrappers.dfy`): `Option` for Python's `None`, and `Result` for a value or the exception raised instead.
- `PosixPath` (`posix_path.dfy`): the parts of Python's `posixpath` that the renaming uses. These are `str.rfind`, `str.rstrip`, `os.path.split` and `os.path.splitext`, with `/` as separator and `.` as extension separator.
- `MarkupFields` (`markup_fields.dfy`): the rendered column name and the value datatype. An `Instance` class holds the instance's `__dict__` as a `map<string, Value>` field. The classes `MarkupText`, `MarkupTextDescriptor` and `MarkupTextField` have methods that update that map in place.
- `ImageFields` (`image_fields.dfy`): the field's options with the defaults of `__init__`, `clean` as a pure function that returns the accepted data or the error kind, and `save_form_data` as a pure function that gives what is handed to the parent field.

What is passed in as a parameter:

- The markup renderer (`render_func`) is a function parameter `render: string -> string`.
- `resize_image` is a function parameter `resize: (seq<byte>, (nat, nat)) -> seq<byte>`.
- The results of the parent `ImageField.clean` and of `get_image_dimensions` are inputs to `Clean`: the data, the optional `size` attribute and the `(width, height)` pair.

Python truthiness is written out. `Truthy(o)` holds for `Some(n)` with `n != 0`, so both `None` and `0` switch a check off. An uploaded file is true when its name is non-empty, as Django's `File` defines it.

## Model

| member | source | states |
|---|---|---|
| `MarkupFields.RenderedFieldName` | machina/models/fields.py:24 | the rendered column name is ten characters longer than the field name: `_`, then the field name itself, then `_rendered` |
| `MarkupFields.RenderedFieldNameDiffers` | machina/models/fields.py:24 | the rendered column name never equals the field name |
| `MarkupFields.RenderedFieldNameInjective` | machina/models/fields.py:24 | two fields share a rendered column name only if they are the same field |
| `MarkupFields.MarkupText.constructor` | machina/models/fields.py:45-50 | the wrapper keeps a reference to its instance and both field names |
| `MarkupFields.MarkupText.Raw` | machina/models/fields.py:53-54 | `raw` is the instance's current value under the field name; a missing key raises `KeyError` |
| `MarkupFields.MarkupText.SetRaw` | machina/models/fields.py:56-57 | assigning a plain value to `raw` writes the raw key only; reading `raw` afterwards gives that value |
| `MarkupFields.MarkupText.Rendered` | machina/models/fields.py:62-63 | `rendered` is the instance's attribute under the rendered name; a missing attribute raises `AttributeError` |
| `MarkupFields.MarkupTextDescriptor.constructor` | machina/models/fields.py:84-86 | the descriptor's rendered name is the rendered column name of its field |
| `MarkupFields.MarkupTextDescriptor.Get` | machina/models/fields.py:88-94 | access through the class raises `AttributeError`; a missing raw key raises `KeyError`; the result is `None` exactly when the stored raw value is `None`; otherwise it is a fresh wrapper over the instance whose `raw` is the stored value |
| `MarkupFields.MarkupTextDescriptor.Set` | machina/models/fields.py:96-102 | a plain value updates only the raw key, leaving the rendered key as it was; a wrapper sets the raw key to its `raw` and then the rendered key to its `rendered`, read after the raw write; `KeyError` writes nothing and `AttributeError` leaves only the raw write; no other key changes |
| `MarkupFields.AssignThenPrepare` | machina/models/fields.py:88-102 | a plain value assigned through the descriptor and read back through it is prepared for the database as exactly that value, never the rendered column; only the raw key changed |
| `MarkupFields.GetDbPrepValue` | machina/models/fields.py:136-140 | a wrapper is stored as its `raw`, and a missing key raises `KeyError`; any other value is stored as itself |
| `MarkupFields.MarkupTextField.constructor` | machina/models/fields.py:128-130 | the field's descriptor serves the field's own name and its rendered column |
| `MarkupFields.MarkupTextField.RenderData` | machina/models/fields.py:142-149 | before save, the rendered key becomes `render(raw)` when the raw value is a string and `None` when it is `None`; a missing raw key raises `KeyError` and writes nothing; no other key changes |
| `ImageFields.Clean` | machina/models/fields.py:169-195 | each error carries the bounds and the measured value its message reports, and that value violates those bounds; an accepted upload is the input data unchanged |
| `ImageFields.SizeErrorExactlyAboveLimit` | machina/models/fields.py:175-182 | with a non-zero limit and a known size, the size error is raised exactly when the size exceeds the limit, so a size equal to the limit passes |
| `ImageFields.NoSizeErrorWithoutLimit` | machina/models/fields.py:166 | with the default limit 0, with `None`, or with no size attribute, no size error is raised |
| `ImageFields.SizeCheckComesFirst` | machina/models/fields.py:174-185 | when the size check fails, the result is the size error whatever the dimensions |
| `ImageFields.WidthErrorExactlyOutsideRange` | machina/models/fields.py:186-189 | once the size passes, the width error is raised exactly when both width bounds are non-zero and the width lies outside the inclusive range |
| `ImageFields.HeightErrorExactlyOutsideRange` | machina/models/fields.py:190-193 | once size and width pass, the height error follows the same rule with the height bounds |
| `ImageFields.WidthCheckBeforeHeight` | machina/models/fields.py:186-193 | a width failure takes precedence over a height failure |
| `ImageFields.AcceptedExactlyWhenAllChecksPass` | machina/models/fields.py:175-195 | the data is returned unchanged exactly when none of the three checks fails |
| `ImageFields.DefaultFieldAcceptsEverything` | machina/models/fields.py:157-167 | a field built without options accepts every upload |
| `ImageFields.PngFileName` | machina/models/fields.py:202-203 | the new name ends in `.png` and contains no `/` |
| `ImageFields.PngFileNameIsStemOfBaseName` | machina/models/fields.py:202-203 | the new name without `.png` is the upload's basename (the text after its last `/`) with the last extension removed; an extension is removed exactly when the basename has one, starts with `.` and holds no further dot |
| `ImageFields.BaseNameAfterLastSlash` | machina/models/fields.py:202 | the basename of `dir/base` is `base` whenever `base` holds no `/` |
| `ImageFields.StemBeforeLastDot` | machina/models/fields.py:202 | `stem.ext` splits into `stem` and `.ext` when the stem holds a non-dot character and `ext` holds no dot |
| `ImageFields.LeadingDotsAreNoExtension` | machina/models/fields.py:202 | a name made of dots, one more dot and a dot-free rest keeps its whole name as the stem |
| `ImageFields.PngFileNameOfNestedName` | machina/models/fields.py:202-203 | `dir/a.b.jpg` becomes `a.b.png` |
| `ImageFields.PngFileNameOfDotName` | machina/models/fields.py:202-203 | `..jpg` becomes `..jpg.png`, because leading dots are not an extension |
| `ImageFields.PngFileNameOfDirectoryName` | machina/models/fields.py:202-203 | `photos/` becomes `.png`, because its basename is empty |
| `ImageFields.SaveFormData` | machina/models/fields.py:197-207 | the data passed on differs from the input only when the upload is present and both `width` and `height` are set |
| `ImageFields.SaveFormDataResizesExactlyWhenConfigured` | machina/models/fields.py:198-207 | without a present upload and both target dimensions, the data is passed on unchanged; with them, it is replaced by a file holding `resize(content, (width, height))` named `PngFileName` of the upload's name, which ends in `.png` and holds no `/` |
| `ImageFields.DefaultFieldNeverResizes` | machina/models/fields.py:158-159 | a field built without options never replaces the upload |
| `PosixPath.RFind` | machina/models/fields.py:202 | the result is -1 or an index holding the character, and no later index holds it |
| `PosixPath.RStrip` | machina/models/fields.py:202 | the result is a prefix that does not end in the character, and only that character was removed |
| `PosixPath.Split` | machina/models/fields.py:202 | the tail holds no `/` and is the text after the last `/`; the head is a prefix of the path, followed only by slashes up to the tail, and keeps a trailing `/` only when it is made of slashes alone, in which case it is all of the path before the tail |
| `PosixPath.SplitExt` | machina/models/fields.py:202 | root and extension concatenate to the path; the extension is empty, or starts with `.` and holds no other `.` and no `/` |
| `PosixPath.SplitExtFindsExtension` | machina/models/fields.py:202 | an extension is split off exactly when the last path component has a dot preceded, within that component, by a non-dot character |

## Left out

- Reading `MACHINA_MARKUP_LANGUAGE` and importing the render function with `curry` (lines 27-41) is runtime import machinery. The renderer is a parameter instead, so the `ImproperlyConfigured` errors are not modelled.
- Django framework hooks are plumbing and are not modelled: `contribute_to_class` (adding the rendered column, connecting the `pre_save` signal), `value_to_string` and the `no_rendered_field` flag of `MarkupTextField.__init__`. The `MarkupTextField` constructor only records the descriptor that `contribute_to_class` installs.
- `mark_safe`, `SafeData`, `__unicode__` and `__len__` belong to Django's template-safety mechanism. `MarkupText.Rendered` returns the stored value as it is. Django's `mark_safe(None)` would give the text `"None"`, and that is not modelled.
- `MarkupFields.MarkupText.SetRaw`: takes a plain value only. Assigning a wrapper to `raw` would go through the descriptor's wrapper branch, and that is not modelled.
- `resize_image` calls PIL to decode, thumbnail and encode a PNG, with floating-point scaling. It is an opaque parameter.
- `get_image_dimensions` and the parent `ImageField.clean` are library calls. Their results are inputs.
- `ImageFields.Clean`: the dimensions are natural numbers. The case where `get_image_dimensions` reports `None` is not modelled.
- `ImageFields.ExtendedImageField`: bounds are natural numbers, so negative option values are not modelled.
- The translated, `filesizeformat`-formatted messages are human-readable output. Only the error kind and the numbers the message shows are kept.
- The South introspection rules (lines 225-263) are a compatibility shim for a migration tool.
- `MarkupFields.MarkupTextField.RenderData`: takes a non-null instance, because the `pre_save` signal always passes one. Only `None` and strings are modelled as raw values.
- `ImageFields.SaveFormData`: the new file keeps the whole `PngFileName`. Django's `UploadedFile` shortens a name longer than 255 characters to 255 while keeping its extension; that is Django code and is not modelled.
- The parent `FileField.save_form_data`, which stores the passed-on data on the instance, is Django code. `SaveFormData` returns that data instead.
