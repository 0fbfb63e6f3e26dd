# HR App Lab: CDK entry-point configuration, in Dafny

The HR App Lab is an AWS CDK application. Its entry point, `app.py`, is the only
executable logic in the repository. It reads seven context parameters (`deployment_id`,
`owner`, `allowed_ingress_cidr`, `nat_mode`, `db_multi_az`, `ec2_instance_type`,
`db_instance_class`). It stops the run with a `ValueError` when `deployment_id` is falsy,
and then when `owner` is falsy. It builds the `common_tags` map
(`Project`, `DeploymentID`, `Owner`). Finally it builds the `cdk.Environment` from
`CDK_DEFAULT_ACCOUNT` (no default) and `CDK_DEFAULT_REGION` (default `us-east-1`).

This project models that step with pure functions and proves its properties:

- `wrappers.dfy`: `Option` and `Result`.
- `context.dfy`: the JSON-shaped `Value` a context lookup returns, Python truthiness on it, and
  `TryGetContext` (a key that is not set reads as `None`).
- `app.dfy`: `Resolve` (reading and validation), `DeriveTags`, `ResolveEnv`, the composed
  `Configure`, and lemmas relating them.

The context is an input map from key to `Value`. The process environment is an input map
from variable name to string. Tag values are `Value`s, not strings: the source puts the
context values into the tag dict unchanged, and a `cdk.json` context may hold non-strings.

The model follows the code's semantics:
- Validation is Python truthiness, not "missing or empty". `None`, `False`, `0`, `0.0`,
  `""`, `[]` and `{}` are all rejected; any other value is accepted.
- The region falls back to `us-east-1` only when `CDK_DEFAULT_REGION` is not set. A variable
  set to the empty string gives the empty region, as `dict.get` does.
- No parameter other than the two required ones is validated in any way.

## Model

| member | source | states |
|---|---|---|
| Context.Truthy | app.py:33-36 | a context value fails the `not` test exactly when it is None, False, numeric zero, or an empty string, list or dict |
| Context.TryGetContext | app.py:24-30 | a key that is not set reads as None; a set key reads as its value |
| App.Resolve | app.py:24-36 | succeeds iff both `deployment_id` and `owner` are truthy; a falsy `deployment_id` is reported first, even when `owner` is falsy too; a truthy `deployment_id` with falsy `owner` reports `owner`; on success all seven values are passed through exactly as read, the required two being set keys |
| App.Message | app.py:34-36 | the error text begins with the name of the offending key |
| App.DeriveTags | app.py:39-43 | the tag map has exactly the keys Project, DeploymentID and Owner; Project is the constant "HRAppLab"; the other two are the input values unchanged |
| App.ResolveEnv | app.py:46-49 | the account is CDK_DEFAULT_ACCOUNT when set and None otherwise, with no default; the region is CDK_DEFAULT_REGION whenever the variable is set, and "us-east-1" only when it is not set |
| App.Configure | app.py:24-49 | the whole step succeeds iff both required values are truthy; a failure carries Resolve's error; a success holds Resolve's parameters, the three tags built from the context's deployment_id and owner, and the resolved environment |
| App.ResolveRange | app.py:24-36 | a parameter record can come out of Resolve iff its deployment_id and owner are truthy; the five optional values can be anything, None included |
| App.OptionalKeysIgnored | app.py:26-36 | two contexts that agree on every key outside the five optional ones resolve alike: same success, same error, same required values |
| App.TagsIdentifyDeployment | app.py:39-43 | two parameter records yield equal tag maps iff they agree on deployment_id and owner |
| App.FailureIgnoresEnvironment | app.py:33-49 | a rejected run reports the same error whatever the environment holds, because the environment is read only after both checks pass |
| App.RegionEmptyOnlyWhenSetEmpty | app.py:48 | the region is empty iff CDK_DEFAULT_REGION is set to the empty string |
| App.LabExample | app.py:24-49 | the context deployment_id=lab01, owner=alice with an empty environment gives the three tags, no account and region us-east-1; dropping owner is rejected with the owner error |

## Left out

- `cdk.App()`, the context lookup machinery and `app.synth()` (app.py:21, 24-30, 112) are calls into the AWS CDK library, which is not part of this model. The context is an input map, and the model stops at the resolved parameters, tags and environment.
- `os.environ.get` (app.py:47-48) is I/O. The environment is an input map.
- The stack imports and stack constructions (app.py:12-18, 51-110) are comments with no behaviour. No stack graph, ordering or output passing is modelled.
- `infra/stacks/__init__.py` and `tests/__init__.py` hold only docstrings.
- Context.Truthy: floats are modelled as reals, so NaN and infinities are not represented; Python treats them as truthy.
- Raising `ValueError` is modelled as an `Err` result; the traceback and the process exit are not modelled.
