# Chrono bookkeeping cores in Dafny

This project models three small pieces of sequential bookkeeping from Project Chrono, a framework for multibody and granular-dynamics simulation. It also proves properties of them.

- **Distributed index table** (`ChDistributedDataManager`, module `DistributedData`). One rank of a distributed simulation maps each body's global id to its slot in the rank's local storage. The model covers what the code does: construction, which binds the table to its owning system and that system's data manager, sets the `first_empty` cursor to 0 and leaves the map empty; and `GetLocalIndex`, which returns the stored slot or the sentinel `-1`. With the invariant that stored slots are non-negative, the sentinel means exactly "not present".
- **Sensor scene** (`ChScene`, module `Scene`). A class with a growable `seq` of point lights, background and fog settings, an origin offset, and the dirty flags `lights_changed` / `background_changed`. Each setter is a method with a field-level `modifies` frame, so whatever a setter does not name cannot change. Fog scattering is clamped into [0, 1], and the fog colour into the unit cube (component-wise; see Findings for the vector clamp ChScene.cpp:80 applies). The origin offset moves when forced, or when dynamic offsetting is on and the sensor has moved past the threshold.
- **Rigid tire mesh preprocessing** (`ChVehicleCosimTireNodeRigid::InitializeTire`, module `TireNodeRigid`). The first loop visits triangles in ascending order. It records each triangle's area and appends the triangle's index to the adjacency list of each of its three corners. The second, nested loop gives each vertex the mean area of its adjacent triangles. Both loops are methods with invariants, proved equal to the reference functions `Adjacent`, `AdjacencyTable` and `MeanArea`. Lemmas then prove membership with exact multiplicity, ordering, bounds, the total size, the range of the mean, and when the mean is NaN.

Module `Common` holds the 32-bit unsigned type, the `static_cast<unsigned int>` wrap-around and the `Vec3` value.

## Model

| member | source | states |
|---|---|---|
| DistributedData.DistributedDataManager.constructor | src/chrono_distributed/ChDistributedDataManager.cpp:19-23 | records the owning system, copies that system's data manager, sets the cursor to 0, leaves the map empty, and so establishes the non-negative-slot invariant |
| DistributedData.DistributedDataManager.GetLocalIndex | src/chrono_distributed/ChDistributedDataManager.cpp:27-33 | returns exactly the stored slot for a key and -1 for a non-key; as a function of the object it changes no state |
| DistributedData.SentinelMeansAbsent | src/chrono_distributed/ChDistributedDataManager.cpp:29-32 | under the invariant: result is -1 if and only if the id is not a key; a hit is non-negative; no result is below -1 |
| DistributedData.StoredMinusOneLooksAbsent | src/chrono_distributed/ChDistributedDataManager.cpp:29-32 | without the invariant the sentinel is ambiguous: a stored -1 reads as a miss, and such a table breaks the invariant |
| DistributedData.EmptyTableMissesEverywhere | src/chrono_distributed/ChDistributedDataManager.cpp:22-32 | on the empty map that construction leaves, every global id misses |
| DistributedData.NewTableMisses | src/chrono_distributed/ChDistributedDataManager.cpp:19-33 | a lookup on a freshly constructed table returns -1 for any id |
| Common.ToUInt32 | src/chrono_sensor/optix/scene/ChScene.cpp:52 | the unsigned cast keeps values already in 32-bit range and is otherwise congruent modulo 2^32 |
| Scene.Clamp | src/chrono_sensor/optix/scene/ChScene.cpp:86 | for lo <= hi the result lies in [lo, hi]; a value already inside is kept; a value below gets lo, a value above gets hi |
| Scene.ClampVecAsWritten | src/chrono_sensor/optix/scene/ChScene.cpp:80 | the `ChClamp` template at `ChVector`: lo when every component is below lo; hi when every component is above hi and not all below lo; otherwise unchanged (so a colour inside the bounds is kept) |
| Scene.AsWrittenFogClampKeepsMixedColour | src/chrono_sensor/optix/scene/ChScene.cpp:80 | (-0.5, 0.5, 0.5) passes the as-written clamp unchanged and stays outside the unit cube; the component-wise clamp gives (0, 0.5, 0.5) |
| Scene.ClampsAgreeOnUniformColours | src/chrono_sensor/optix/scene/ChScene.cpp:80 | for colours all below, all above or all inside [0,1], the as-written and component-wise clamps agree |
| Scene.ClampUnit | src/chrono_sensor/optix/scene/ChScene.cpp:80 | the component-wise clamp: the result lies in the unit cube, and a colour already inside is kept |
| Scene.LongerThan | src/chrono_sensor/optix/scene/ChScene.cpp:98 | `(sensor_pos - m_origin_offset).Length() > m_dynamic_origin_threshold` decided on the squared length: always true for a negative threshold, never true for the zero vector and a non-negative threshold; `Scene.LongerThanIsLength` proves it equals `L > t` for the length L |
| Scene.LongerThanIsLength | src/chrono_sensor/optix/scene/ChScene.cpp:98 | for every vector d, threshold t and non-negative L with L·L = d·d (the length), the squared-length test holds exactly when L > t |
| Scene.ModifyAsWritten | src/chrono_sensor/optix/scene/ChScene.cpp:61-66 | ChScene.cpp's guard `id <= size`: it writes out of bounds exactly when id equals the list length, writes exactly when id is in range, and any write replaces entry id |
| Scene.ModifyGuarded | src/chrono_sensor/optix/scene/ChScene.cpp:61-66 | with guard `id < size` there is never an out-of-bounds write; it writes exactly when id is in range, keeping the length, setting entry id and keeping every other entry |
| Scene.AsWrittenOverrunsAtNextIndex | src/chrono_sensor/optix/scene/ChScene.cpp:62-63 | for every list, the as-written guard overruns at id = length, the index the next add returns; the guarded version does nothing there |
| Scene.GuardedAgreesOffTheEnd | src/chrono_sensor/optix/scene/ChScene.cpp:61-66 | for every id other than the length, the guarded and as-written versions agree |
| Scene.ModifyAddedLight | src/chrono_sensor/optix/scene/ChScene.cpp:55-63 | modifying at the index an add returned replaces just the added light |
| Scene.Scene.constructor | src/chrono_sensor/optix/scene/ChScene.cpp:24-41 | default gradient background and ambient light, empty light list, both dirty flags raised, white fog with scattering 0, epsilon 1e-3, threshold 100, dynamic offset disabled |
| Scene.Scene.AddPointLight | src/chrono_sensor/optix/scene/ChScene.cpp:45-53 | appends one light holding the given position, colour components and range; earlier lights unchanged; raises lights_changed; returns the new index, equal to the old length when it fits in 32 bits |
| Scene.Scene.AddPointLightRecord | src/chrono_sensor/optix/scene/ChScene.cpp:55-59 | appends the given light at the end; raises lights_changed; returns the new index with the same cast |
| Scene.Scene.ModifyPointLight | src/chrono_sensor/optix/scene/ChScene.cpp:61-66 | for an in-range id, replaces entry id and raises lights_changed; otherwise leaves the list and the flag unchanged; touches nothing else |
| Scene.Scene.SetBackground | src/chrono_sensor/optix/scene/ChScene.cpp:68-71 | stores the background and raises background_changed; the lights and lights_changed are outside its frame |
| Scene.Scene.SetSceneEpsilon | src/chrono_sensor/optix/scene/ChScene.cpp:73-76 | stores epsilon and raises background_changed; nothing else changes |
| Scene.Scene.SetFogColor | src/chrono_sensor/optix/scene/ChScene.cpp:79-82 | stores the colour clamped component-wise (the corrected clamp; see Findings), so it lies in the unit cube; raises background_changed; nothing else changes |
| Scene.Scene.SetFogScattering | src/chrono_sensor/optix/scene/ChScene.cpp:85-88 | the stored coefficient is the clamp into [0,1], so it lies in [0,1]; raises background_changed |
| Scene.Scene.SetFogScatteringFromDistance | src/chrono_sensor/optix/scene/ChScene.cpp:91-95 | scattering times the distance clamped into [1e-3, 1e16] equals ln 256; raises background_changed; nothing else changes |
| Scene.Scene.UpdateOriginOffset | src/chrono_sensor/optix/scene/ChScene.cpp:97-103 | when forced, or when dynamic offsetting is on and the sensor is farther than the threshold, the offset becomes the sensor position and the origin flag is raised; otherwise, including every unforced call with dynamic offsetting off, both are unchanged |
| TireNodeRigid.Pushed | src/chrono_vehicle/cosim/tire/ChVehicleCosimTireNodeRigid.cpp:74-76 | one triangle pushes its index once per corner equal to the vertex and nothing else |
| TireNodeRigid.AdjacencyTable | src/chrono_vehicle/cosim/tire/ChVehicleCosimTireNodeRigid.cpp:64 | there are exactly num_verts adjacency lists |
| TireNodeRigid.AdjacentMultiplicity | src/chrono_vehicle/cosim/tire/ChVehicleCosimTireNodeRigid.cpp:66-77 | triangle ie occurs in vertex v's list once per corner of ie equal to v; an index that is not a triangle never occurs |
| TireNodeRigid.PushedMultiplicity | src/chrono_vehicle/cosim/tire/ChVehicleCosimTireNodeRigid.cpp:74-76 | one triangle's pushes contain its own index once per matching corner, and no other index |
| TireNodeRigid.AdjacentMembership | src/chrono_vehicle/cosim/tire/ChVehicleCosimTireNodeRigid.cpp:66-77 | ie is in v's list if and only if ie is a triangle with a corner equal to v |
| TireNodeRigid.AdjacentSorted | src/chrono_vehicle/cosim/tire/ChVehicleCosimTireNodeRigid.cpp:66-76 | each list is non-decreasing and holds only indices below num_triangles |
| TireNodeRigid.Adjacent | src/chrono_vehicle/cosim/tire/ChVehicleCosimTireNodeRigid.cpp:66-76 | reference definition of v's list as the push loop builds it, in ascending triangle order; its length is the number of triangle corners equal to v |
| TireNodeRigid.AdjacencyTotal | src/chrono_vehicle/cosim/tire/ChVehicleCosimTireNodeRigid.cpp:66-77 | when every corner is < num_verts, the list lengths sum to 3 * num_triangles |
| TireNodeRigid.AreaSum | src/chrono_vehicle/cosim/tire/ChVehicleCosimTireNodeRigid.cpp:82-85 | the left-to-right accumulation `area += triArea[...]` over a list, starting at 0; non-negative when the listed areas are |
| TireNodeRigid.MeanArea | src/chrono_vehicle/cosim/tire/ChVehicleCosimTireNodeRigid.cpp:86 | `area / size`: NaN exactly for an empty list (0.0 / 0), otherwise a number that times the list length gives the accumulated area |
| TireNodeRigid.AreaSumBounds | src/chrono_vehicle/cosim/tire/ChVehicleCosimTireNodeRigid.cpp:82-85 | the accumulated area lies between length*min and length*max of the triangle areas |
| TireNodeRigid.MeanAreaBounds | src/chrono_vehicle/cosim/tire/ChVehicleCosimTireNodeRigid.cpp:81-87 | a used vertex's area is a finite number between the smallest and the largest triangle area |
| TireNodeRigid.NaNIffUnused | src/chrono_vehicle/cosim/tire/ChVehicleCosimTireNodeRigid.cpp:81-87 | a vertex's area is NaN (0/0) if and only if no triangle has a corner at it |
| TireNodeRigid.Resize | src/chrono_vehicle/cosim/tire/ChVehicleCosimTireNodeRigid.cpp:64 | `resize` yields num_verts lists: existing lists kept in place, new ones empty |
| TireNodeRigid.TriangleAreas | src/chrono_vehicle/cosim/tire/ChVehicleCosimTireNodeRigid.cpp:65-73 | triArea has one entry per triangle, computed from the triangle's three corner positions |
| TireNodeRigid.AdjacentStep | src/chrono_vehicle/cosim/tire/ChVehicleCosimTireNodeRigid.cpp:66-76 | visiting triangle ie extends each list by exactly that triangle's pushes |
| TireNodeRigid.PushCorners | src/chrono_vehicle/cosim/tire/ChVehicleCosimTireNodeRigid.cpp:74-76 | the three push_backs, even onto the same list, append to every list exactly that triangle's pushes for it |
| TireNodeRigid.PushStep | src/chrono_vehicle/cosim/tire/ChVehicleCosimTireNodeRigid.cpp:66-77 | one iteration of the push loop keeps every list equal to its start plus the reference list of the triangles visited so far |
| TireNodeRigid.PreprocessAdjacency | src/chrono_vehicle/cosim/tire/ChVehicleCosimTireNodeRigid.cpp:60-77 | with every corner < num_verts (what the indexing needs), the loop leaves the starting list plus the reference adjacency list at each vertex, and triArea equal to the per-triangle areas |
| TireNodeRigid.PreprocessVertexArea | src/chrono_vehicle/cosim/tire/ChVehicleCosimTireNodeRigid.cpp:80-87 | one area per vertex, each the sum of the listed triangle areas divided by the list length (NaN for an empty list) |
| TireNodeRigid.VertexAreas | src/chrono_vehicle/cosim/tire/ChVehicleCosimTireNodeRigid.cpp:80 | m_vertexArea has exactly num_verts entries |
| TireNodeRigid.ResultTable | src/chrono_vehicle/cosim/tire/ChVehicleCosimTireNodeRigid.cpp:64-77 | the final table has exactly num_verts lists |
| TireNodeRigid.FreshNodeTable | src/chrono_vehicle/cosim/tire/ChVehicleCosimTireNodeRigid.cpp:64-77 | on a node whose lists start empty, the final table is the reference adjacency table |
| TireNodeRigid.ResultTableBounds | src/chrono_vehicle/cosim/tire/ChVehicleCosimTireNodeRigid.cpp:81-84 | if the stale entries name triangles, every entry in the final table names a triangle, so the area loop stays in bounds |
| TireNodeRigid.TireNode.constructor | src/chrono_vehicle/cosim/tire/ChVehicleCosimTireNodeRigid.cpp:37 | a new node has no adjacency lists and no vertex areas (the default-constructed member vectors) |
| TireNodeRigid.TireNode.InitializeTire | src/chrono_vehicle/cosim/tire/ChVehicleCosimTireNodeRigid.cpp:58-87 | m_adjElements becomes the resized old lists plus the reference adjacency, which is exactly the reference table on a fresh node; every entry is in range; m_vertexArea is the per-vertex mean of the triangle areas |

## Findings

| source | as written | input that shows it | evidently intended | confidence | as-written member | corrected member |
|---|---|---|---|---|---|---|
| src/chrono_sensor/optix/scene/ChScene.cpp:62 | the guard `id <= m_pointlights.size()` admits `id == size`, and line 63 then writes one past the end of the vector (`Scene.AsWrittenOverrunsAtNextIndex` shows this for every list) | a scene with no lights, `ModifyPointLight(0, p)` | `id < m_pointlights.size()`: out-of-range ids leave the scene unchanged | high; not executed | Scene.ModifyAsWritten | Scene.Scene.ModifyPointLight |
| src/chrono_sensor/optix/scene/ChScene.cpp:80 | `ChClamp(color, (0,0,0), (1,1,1))` uses the single-type template, whose `<` and `>` on `ChVector` hold only when all three components compare; a colour with some components out of range and others inside is stored unchanged (`Scene.AsWrittenFogClampKeepsMixedColour`) | `SetFogColor((-0.5, 0.5, 0.5))` | clamp each component into [0, 1], so the fog colour always lies in the unit cube | medium; not executed; rests on the definitions of `ChClamp` and of `ChVector`'s comparison operators, which are not part of this model | Scene.ClampVecAsWritten | Scene.Scene.SetFogColor |

## Left out

- Floating point: `float` and `double` values are modelled as `real`. Rounding, infinities and float-to-int behaviour are not modelled. The one exception is the NaN from `0.0 / 0` in the vertex-area loop, which is modelled explicitly.
- Scene.Scene.SetFogColor: models the corrected, component-wise clamp. The clamp ChScene.cpp:80 applies is modelled as `Scene.ClampVecAsWritten`, on the reading that `ChVector`'s comparisons require all components; `ChClamp` and those operators are not part of this model. See Findings.
- Scene.Scene.UpdateOriginOffset: `Length() > threshold` is decided exactly on the squared length, with no square root or rounding.
- Scene.Scene.SetFogScatteringFromDistance: `log(256.0)` is a parameter, `ln256`, not a computed value.
- Scene.Scene.constructor: ChScene's constructor (ChScene.cpp:24-41) does not set the origin offset or its flag, so the model leaves both unconstrained. Their initial values come from `ChScene.h`, which is not part of this model.
- Scene.Scene.ModifyPointLight: models the corrected guard `id < size`. An out-of-bounds write cannot be expressed in a verified method, so the as-written behaviour appears only as `Scene.ModifyAsWritten`. See Findings.
- Nothing in ChScene.cpp clears the dirty flags; the rendering engine that does is outside the model.
- TireNodeRigid.TriangleAreas: the cross-product area `0.5 * |(v2 - v1) x (v3 - v1)|` is a function parameter `area`, because it is floating-point geometry.
- TireNodeRigid.TireNode.InitializeTire: the `wheel->SetTire` and tire `Initialize` calls, visualization setup, contact-mesh retrieval and the collision-geometry and material pushes are left out. They are calls into the vehicle library.
- Loop counters are unbounded integers: the `int` loop counters overflow past 2^31 triangles or vertices, and the `unsigned int` inner counter past 2^32 entries in one list; none of this is modelled.
- `ConstructTire`, `ApplySpindleState`, `ApplySpindleForce`, `OnOutputData`, `WriteTireStateInformation`, `WriteTireMeshInformation` and `OutputVisualizationData` are left out. They are foreign calls into the vehicle library, physics-body setters, or file and CSV output.
- The destructors are left out: they are empty.
- DistributedData: ChDistributedDataManager.cpp has no insert, remove, compaction or `first_empty` allocation logic for the index map, so none is modelled. `ChSystemDistributed` and its data manager appear only as the references the constructor records.
- The demo drivers (`demo_SEN_radar.cpp`, `demo_GPU_repose.cpp`) and the GPU unit test (`utest_GPU_mini.cpp`) are left out. They configure external physics and sensor engines, use CUDA, and perform I/O.
