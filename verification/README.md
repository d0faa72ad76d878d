# Hardware analyser and OpenVINO inference server — a Dafny model

This project models the decision logic of two Python programs.

- `hardware_analyzer.py` probes a host and writes a report. The model covers how the probe results are read:
  - the `lspci` output is split into device lines;
  - each PCI line is sorted into a GPU, an NPU or a GNA accelerator by an ordered, first-match-wins chain of substring tests, and the device name is cut out after the first `": "`;
  - the two `dmidecode` results are sorted into three outcomes: error, Intel NUC / Compute Stick, or another product;
  - GCC architecture flags are chosen from the CPU model, ignoring case;
  - the core count for `MAKEFLAGS` is taken from the "Cores" text.
- `openvino_inference_server.py` serves an `LLMPipeline` over HTTP. The model covers:
  - the one piece of state, the global `pipeline` (absent or present);
  - `initialize_pipeline`, the transition that sets `pipeline`, with its guards;
  - the status code and body that `health_check` and `generate` compute from that state and from the request;
  - the start-up path, which serves only after initialisation has succeeded.

Modules:

- `Wrappers` (`wrappers.dfy`): `Option` and `Result`.
- `Text` (`text.dfy`): the Python string operations the analyser uses: `in`, the first occurrence of a separator, `split('\n')`, `lower()`, `\d+` and `int()`, plus `join`, used only to state the inverse of `split`. `in`, the separator search, `split`, `\d+` and the first-digit search are each proved to match a reference meaning; `int()` is tied to `str()` by a round trip.
- `HardwareAnalyzer` (`hardware_analyzer.dfy`): the probe interpretation. `parse_pci_devices` is a method with a loop that appends to two lists. It is proved equal to `PciReportOf`, a function over the lines, and the properties of the report are proved as lemmas about that function.
- `InferenceServer` (`inference_server.dfy`): the class `Server` holds the server's globals. `InitializePipeline` is the only method that may assign `pipeline`. The request handlers are functions of the state and the request.

Some operations are oracles, passed in as function parameters:

- the external commands (their results are `Option<string>` inputs);
- `os.path.isdir`;
- the `LLMPipeline` constructor (it either returns a handle or raises);
- the pipeline call (it either returns text or raises);
- `request.get_json()` (it either gives a decoded value or raises).

Facts about the code that the model pins down:

- The server takes one `--device` string and passes it unchanged to the `LLMPipeline` constructor.
- `max_new_tokens` defaults to 100 and is passed to the engine without validation.
- `/health` reports `pipeline_initialized`, a `status` and, when there is no pipeline, a `message`.
- The 400 "Invalid JSON" answer is given only for a falsy body, such as `null`, `{}` or `""`. If `request.get_json()` raises, for instance on malformed JSON, the broad `except Exception` catches it and the answer is 500. A truthy body that is not an object has no `.get`, so it also gets 500. So does a truthy prompt that cannot be sliced by the `prompt[:50]` in the log line (a number, `true` or an object), before the engine is called.
- Python (3.11 and later) refuses to convert a string of more than 4300 digits with `int()`. The resulting `ValueError` is swallowed by the report, so such a "Cores" text gives no core count.

## Model

| member | source | states |
|---|---|---|
| `Text.Find` | hardware_analyzer.py:83 | The result is the index of the first occurrence of the pattern. No earlier index is an occurrence. The result is absent exactly when the pattern occurs nowhere. |
| `Text.Contains` | hardware_analyzer.py:82-87 | Python's `pat in s` holds exactly when the pattern occurs at some index of `s`. The test is exact and case-sensitive. |
| `Text.JoinSplit` | hardware_analyzer.py:60 | Rejoining the pieces of `split('\n')` with `'\n'` gives back the original text. |
| `Text.SplitPiecesOmitSeparator` | hardware_analyzer.py:60 | No piece of `split('\n')` contains a newline. |
| `Text.SplitJoin` | hardware_analyzer.py:60 | Splitting the join of one or more newline-free lines gives back exactly those lines, so split and join are inverse. |
| `HardwareAnalyzer.GetPciDevices` | hardware_analyzer.py:56-61 | The list is empty exactly when the `lspci` result is None or empty. Otherwise the lines rejoin with `'\n'` to the output and none of them contains a newline. |
| `HardwareAnalyzer.ClassifyBySignature` | hardware_analyzer.py:81-87 | A line is a GPU exactly when it contains both "VGA compatible controller" and "Intel". It is an NPU exactly when it is not a GPU and contains "Processing accelerators" and "NPU". It is a GNA exactly when it is neither and contains "Gaussian & Neural-Network Accelerator". Otherwise it is ignored. |
| `HardwareAnalyzer.DeviceNameAfterFirstSeparator` | hardware_analyzer.py:83 | The name exists exactly when the line contains `": "`. It is the suffix after the first occurrence. |
| `HardwareAnalyzer.ParsePciDevices` | hardware_analyzer.py:76-89 | The loop that appends to `gpu_info` and `accelerator_info` computes `PciReportOf`. That includes the `IndexError` raised at the first recognised line that has no `": "`. |
| `HardwareAnalyzer.PciReportSucceeds` | hardware_analyzer.py:81-87 | Parsing raises no error exactly when every recognised line contains `": "`. Ignored lines need no name. |
| `HardwareAnalyzer.PciReportContents` | hardware_analyzer.py:78-89 | On success the GPU list holds one entry per GPU line, and the accelerator list one entry per NPU or GNA line, both in input order. The two lengths add up to the number of recognised lines, so no line contributes twice and the total is at most the number of lines. |
| `HardwareAnalyzer.PciReportError` | hardware_analyzer.py:83-87 | An error names a recognised line that has no `": "`. Every recognised line before it has a name, so the error comes from the first such line. |
| `HardwareAnalyzer.GpuWinsOverAccelerator` | hardware_analyzer.py:82-85 | Any line that passes the GPU test and has a name gives a single GPU entry and no accelerator entry, whatever NPU or GNA markers it also contains. |
| `HardwareAnalyzer.EmptyListing` | hardware_analyzer.py:58-89 | A missing or empty `lspci` output gives two empty lists. |
| `HardwareAnalyzer.SystemProductInfo` | hardware_analyzer.py:68-74 | A missing product name gives the dmidecode error, whatever the board name. A product name containing "NUC" or "Compute Stick" gives Type "Intel NUC / Compute Stick" with Model set to the product name. Any other product name gives Type set to the product name and Board set to the board name. |
| `HardwareAnalyzer.EmptyProductIsNotError` | hardware_analyzer.py:68-74 | An empty product name is an ordinary product, not an error. |
| `HardwareAnalyzer.GenerateCompilerFlags` | hardware_analyzer.py:117-131 | The architecture flags are the meteorlake pair exactly when the lower-cased Model contains "meteor lake", and the native pair otherwise. The optimisation flags, the vectorisation flags and the comment are the same constants for every input. |
| `HardwareAnalyzer.MissingModelIsNative` | hardware_analyzer.py:119-124 | A CPU record without a Model is read as "" and gives the native flags. |
| `HardwareAnalyzer.CompilerFlagsIgnoreCase` | hardware_analyzer.py:119-121 | Two models that differ only in letter case get the same flags, and lower-casing the model first changes nothing. |
| `HardwareAnalyzer.MeteorLakeBrand` | hardware_analyzer.py:119-122 | A model containing "Meteor Lake" gets the meteorlake flags. |
| `HardwareAnalyzer.CoreCount` | hardware_analyzer.py:204-210 | A count exists only when the "Cores" entry is present and contains a digit; an entry without digits gives no count, so the report emits no parallel-build line. |
| `HardwareAnalyzer.CoreCountIsFirstDigitRun` | hardware_analyzer.py:206-210 | For any text made of a digit-free prefix, a run of digits, and then nothing or a non-digit, the count is the decimal value of that run when the run has at most 4300 digits, and there is no count when it is longer (`int()` raises `ValueError`, which is swallowed). |
| `HardwareAnalyzer.CoreCountRoundTrip` | hardware_analyzer.py:18 | The "Cores" text that the CPU probe writes for a count, `f"{count} physical"`, gives that count back, for every count that `str()` can write (at most 4300 digits). |
| `HardwareAnalyzer.UnknownCoreCount` | hardware_analyzer.py:204-210 | "N/A physical" gives no count, and neither does a missing "Cores" entry. |
| `InferenceServer.HealthCheck` | openvino_inference_server.py:55-61 | The answer is 200 with `pipeline_initialized: true` and status "ok" exactly when the pipeline is present. Otherwise it is 503 with `pipeline_initialized: false`, status "error" and the message "LLM pipeline is not initialized." |
| `InferenceServer.GenerateDecision` | openvino_inference_server.py:92-121 | The checks run in a fixed order. With no pipeline the answer is always 500 "not initialized". With a pipeline, a falsy body gets 400 "Invalid JSON in request body" (before the prompt is looked at), an object body with a missing or falsy prompt gets 400 "Missing 'prompt' in request body", and every other early 500 is the generation error raised on the request side. The engine is called exactly when a pipeline exists, the body is an object, and the prompt is present, truthy and sliceable; it is then called with that pipeline, that prompt, and `max_new_tokens` or the default of 100. The answer is 400 exactly when a pipeline exists and either the body is falsy or it is an object whose prompt is missing or falsy. |
| `InferenceServer.Generate` | openvino_inference_server.py:92-121 | An answer decided before the engine call (400 or 500) is returned unchanged. When the engine is called and completes, the answer is 200 with the engine's text as `generated_text`; when it raises, the answer is 500 with the generation error carrying the exception's text. The status is 200 exactly when the engine completes, and is always 200, 400 or 500. |
| `InferenceServer.GenerateWithoutPipeline` | openvino_inference_server.py:96-98 | Without a pipeline, every request gets 500 "LLMPipeline not initialized", even one with no prompt. |
| `InferenceServer.EngineNotConsulted` | openvino_inference_server.py:100-113 | When `generate` answers before the pipeline call, the engine's behaviour cannot change the answer. |
| `InferenceServer.DefaultTokenBudget` | openvino_inference_server.py:105-117 | A non-empty string prompt sent without `max_new_tokens` reaches the engine with 100 tokens. The engine's text is returned with 200, and an engine exception with 500. |
| `InferenceServer.EmptyPromptRefused` | openvino_inference_server.py:105-110 | With a pipeline, `{"prompt": ""}` gets 400 "Missing 'prompt'". |
| `InferenceServer.Server.constructor` | openvino_inference_server.py:11-13 | The server starts with no pipeline and the given model path and device. |
| `InferenceServer.Server.InitializePipeline` | openvino_inference_server.py:15-41 | With no model path, an empty one, or one that is not a directory, the result is False and `pipeline` is unchanged. Otherwise `pipeline` becomes the constructor's outcome for (model path, device): the handle and True on success, absent and False when the constructor raises. |
| `InferenceServer.Server.HandleHealth` | openvino_inference_server.py:55-61 | The health route answers `HealthCheck` of the current pipeline and changes no state. |
| `InferenceServer.Server.HandleGenerate` | openvino_inference_server.py:92-121 | The generate route answers `Generate` of the current pipeline and changes no state. |
| `InferenceServer.Startup` | openvino_inference_server.py:130-137 | The server serves exactly when initialisation succeeds. A serving server has a pipeline, so `/health` answers 200 and `generate` never reaches its "not initialized" branch. |

## Left out

- `_run_command`, `lspci` and `dmidecode`: running a subprocess is I/O. Only the results are modelled, as `Option<string>` inputs, and the `.strip()` applied to them is assumed already done.
- `get_cpu_info`, `get_memory_info`, `get_disk_info`: these wrap `py-cpuinfo` and `psutil`, which are not part of this model, and format floating-point sizes. Only the "Cores" text shape `f"{count} physical"` is used, in `CoreCountRoundTrip`.
- `display_report` printing, `main`, argparse, JSON output and the dependency check: output formatting and environment checks. Only the core-count extraction is modelled.
- `HardwareAnalyzer.GenerateCompilerFlags`: `lower()` is modelled on ASCII letters only. Python lower-cases all of Unicode.
- `HardwareAnalyzer.CoreCount`: `\d` and `int()` are modelled on ASCII digits only. Python also accepts other Unicode decimal digits.
- The Flask app: routing, the `/` welcome route, the `/hardware` route (a subprocess plus `json.loads`) and `app.run` are HTTP plumbing and foreign calls.
- `LLMPipeline` numerics: the constructor and the pipeline call are oracles. A present pipeline is assumed truthy, as a Python object without `__bool__` is.
- `InferenceServer.Generate`: the text of exceptions raised by the request side (`get_json`, `.get`, slicing) is Python's own, so it is recorded only as a cause. JSON numbers are integers, so a float `0.0` is not represented.
- Concurrent request handling: Flask's threads share `pipeline`. The handlers only read it; the code has no locking, no pipeline cache and no device fallback, so there is none to model.
- The unit-test file does not match the code: it imports a class that `hardware_analyzer.py` does not define. It is not part of this model.
