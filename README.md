# Cijkl: single-crystal elasticity, VRH averages and elastic anisotropy

This is a Dafny model of the core of Cijkl. Cijkl is a small Python/numpy library for working with the single-crystal elasticity tensor of a mineral. It is modelled in four modules, one per source file.

- **CijSij124d**:
  - `Cij1t2r` places the 21 independent stiffness constants in the upper triangle of the 6x6 Voigt matrix, then mirrors them below the diagonal.
  - `Cij2t4r` expands the Voigt matrix into the 3x3x3x3 stiffness tensor. It first copies along the Voigt pair map, then fills the symmetric slots.
  - `C1dts2d` returns the inverse of the Voigt matrix, the 6x6 compliance matrix.
  - `C1dts1d` reads the 21 compliances out of that inverse, in the order of the constants.
- **CijKGvrh**: `CijVRH`, the Voigt-Reuss-Hill averages. It returns a 2x9 table:
  - row 0 is `[dens, Kv, Kr, Kvrh, Gv, Gr, Gvrh, Vp, Vs]`;
  - row 1 holds their first-order errors.
- **CijtVel**: `Cijtvel` computes the phase velocities and polarizations along one direction:
  - normalise the direction;
  - accumulate the Christoffel matrix `A[i][k] = sum_jl c[i][j][k][l] n[j] n[l]` in a j/l/i/k loop;
  - take its eigensystem and compute `sqrt(E / dens)`;
  - reorder the (velocity, eigenvector) pairs into descending order.
- **CijAniso**:
  - `UnivAniso` computes the universal anisotropy index `AU` and its error.
  - `AVpVs` runs Cijtvel over the direction grid `[nx, ny, ±nz] / m`. It grows a 12-column table `vel | pol1d` from a zero seed row and then deletes that row. It then reports the Vp azimuthal anisotropy, the Vs azimuthal anisotropy and the largest shear-wave splitting. Each comes with the row where its extreme first occurs.

A fifth module, **Numerics**, holds the shared vocabulary:
- squares;
- the square-root predicate `IsSqrt`;
- matrix shapes;
- small integer division lemmas.

Form of the model:
- numpy arrays are sequence values. An element assignment replaces the value by its update at that element.
- Code that changes arrays step by step is a method. This covers:
  - the 21 placement assignments of `Cij1t2r`, as straight-line updates;
  - the mirror, copy and symmetrisation loops, proved entry by entry, and then equal to `VoigtMatrix` and `VoigtTensor` in `Cij1t2r` and `Cij2t4r`;
  - the Christoffel accumulation, proved equal to `Christoffel`;
  - the grid loops, proved equal to `SurveyTable`, and the max, min and `np.where` scans, proved equal to `SeqMax`, `SeqMin` and `FirstIndex`.
- Three numpy calls become parameters:
  - `inverse: Matrix -> Matrix` for `np.linalg.inv`;
  - `eig: Matrix -> Eigensystem` for `np.linalg.eig`;
  - `sqrt: real -> real` for `**0.5` and `linalg.norm`.
- Lemmas that need `sqrt` to be a square root require `IsSqrt(sqrt)`: a non-negative result that squares back, for non-negative arguments.

## Model

| member | source | states |
|---|---|---|
| CijSij124d.SlotBijection | CijSij124d.py:72-94 | the 21 constants go to 21 distinct positions with i <= j; every upper-triangle position is hit; SlotOf inverts the slot list |
| CijSij124d.PlaceConstants | CijSij124d.py:69-94 | after the 21 assignments, each position on or above the diagonal holds its constant and every position below it is still 0 |
| CijSij124d.MirrorUpperTriangle | CijSij124d.py:96-102 | the mirror loop copies each upper entry to its partner below the diagonal and leaves the diagonal and upper triangle unchanged |
| CijSij124d.Cij1t2r | CijSij124d.py:67-108 | the result is the Voigt matrix of the constants; it is symmetric and holds constant k at slot k |
| CijSij124d.MirroredIsVoigt | CijSij124d.py:72-101 | placing, then mirroring, yields exactly the Voigt matrix |
| CijSij124d.VoigtMatrixFacts | CijSij124d.py:72-99 | the Voigt matrix is symmetric and holds each constant at its own slot |
| CijSij124d.VoigtEntryFacts | CijSij124d.py:72-99 | entry-wise symmetry, and each constant read back at its slot |
| CijSij124d.ReadSlots | CijSij124d.py:201-223 | reading a matrix out gives 21 values, value k being the entry at slot k |
| CijSij124d.ReadSlotsRoundTrip | CijSij124d.py:72-94 | reading the Voigt matrix through the read-out slot list returns the 21 constants (the two slot lists coincide) |
| CijSij124d.SlotListsRoundTrip | CijSij124d.py:201-223 | the C1dts1d read-out applied to the Cij1t2r matrix gives back the input constants |
| CijSij124d.ReadCompliances | CijSij124d.py:200-223 | the 21 element assignments of C1dts1d produce ReadSlots of the compliance matrix |
| CijSij124d.C1dts2d | CijSij124d.py:186-190 | the compliance matrix is the inverse of the Voigt matrix of the constants |
| CijSij124d.C1dts1d | CijSij124d.py:196-225 | the compliances are the inverse Voigt matrix read through the slot list |
| CijSij124d.VoigtPair | CijSij124d.py:123-160 | every Voigt index stands for an ordered index pair i <= j |
| CijSij124d.VoigtMapFacts | CijSij124d.py:123-160 | the Voigt pair map is a bijection onto the ordered pairs, and the Voigt index ignores the order of a pair |
| CijSij124d.VoigtPairInjective | CijSij124d.py:123-160 | distinct Voigt indices give distinct index pairs, so no copy overwrites another |
| CijSij124d.CopyEntry | CijSij124d.py:161 | one r/s step writes c2r[r][s] at slot (VoigtPair(r), VoigtPair(s)) and keeps the earlier copies |
| CijSij124d.CopyVoigtEntries | CijSij124d.py:116-163 | after the r/s loop, every slot with i <= j and k <= l holds c2r at the Voigt indices of its pairs |
| CijSij124d.OrderedSlotsCopied | CijSij124d.py:123-163 | once all 36 entries are copied, the ordered slots hold their stiffness |
| CijSij124d.FillSlot | CijSij124d.py:168-177 | one symmetrisation step copies from the partner slot with the offending pair swapped, or assigns a slot to itself, and makes it hold its stiffness |
| CijSij124d.FillSymmetricSlots | CijSij124d.py:164-177 | after the i/j/k/l loop, every slot holds c2r at the Voigt indices of its two pairs |
| CijSij124d.Cij2t4r | CijSij124d.py:114-180 | c4r[i][j][k][l] = c2r[v(i,j)][v(k,l)]; minor symmetries; reading back at each Voigt pair gives c2r; major symmetry when c2r is symmetric; the whole tensor is VoigtTensor(c2r) |
| CijSij124d.VoigtTensor | CijSij124d.py:114-180 | the tensor of a Voigt matrix holds, at every slot, the stiffness at the Voigt indices of its pairs; Cij2t4r returns it and Cijtvel uses it |
| CijSij124d.Update4 | CijSij124d.py:161 | an element assignment sets the one slot and leaves every other slot as it was |
| CijSij124d.Slot | CijSij124d.py:72-94 | definition: the (row, column) each of the 21 constants is written to, in the order of the assignments; its properties are in SlotBijection |
| CijSij124d.SlotOf | CijSij124d.py:72-101 | definition: the constant that ends up at (i, j) after placing and mirroring, an independent table that SlotBijection proves inverse to Slot |
| CijSij124d.VoigtEntry | CijSij124d.py:72-101 | definition: entry (i, j) of the Voigt matrix is the constant at SlotOf(i, j) |
| CijSij124d.VoigtMatrix | CijSij124d.py:67-108 | definition: the 6x6 matrix of VoigtEntry, the value Cij1t2r is proved to return |
| CijSij124d.VoigtIndex | CijSij124d.py:123-160 | definition: the Voigt index of a tensor index pair, (0,0) to 0, (1,1) to 1, (2,2) to 2, (1,2) and (2,1) to 3, (0,2) and (2,0) to 4, (0,1) and (1,0) to 5 |
| CijSij124d.Stiffness | CijSij124d.py:161-177 | definition: tensor slot (i, j, k, l) is c2r at VoigtIndex(i, j) and VoigtIndex(k, l), the value Cij2t4r is proved to hold in every slot |
| CijKGvrh.Kv | CijKGvrh.py:143 | definition: Kv = ((c11 + c22 + c33) + 2 (c12 + c23 + c13)) / 9, read from slots 0-2 and 6-8 |
| CijKGvrh.Gv | CijKGvrh.py:144 | definition: Gv = ((c11 + c22 + c33) - (c12 + c23 + c13) + 3 (c44 + c55 + c66)) / 15 |
| CijKGvrh.KrDenominator | CijKGvrh.py:172 | definition: (s11 + s22 + s33) + 2 (s12 + s13 + s23) of the compliance matrix |
| CijKGvrh.GrDenominator | CijKGvrh.py:173 | definition: 4 (s11 + s22 + s33) - 4 (s12 + s13 + s23) + 3 (s44 + s55 + s66) |
| CijKGvrh.KvrhErrB | CijKGvrh.py:179 | definition: the square root of (c11err^2 + c22err^2 + c33err^2 + 4 (c12err^2 + c13err^2 + c23err^2)) / 81 |
| CijKGvrh.GvrhErrB | CijKGvrh.py:182 | definition: the square root of (c11err^2 + c22err^2 + c33err^2 + c12err^2 + c13err^2 + c23err^2 + 9 (c44err^2 + c55err^2 + c66err^2)) / 225 |
| CijKGvrh.HillErr | CijKGvrh.py:178-183 | definition: abs(voigt - reuss) / 2 plus the square root of errb^2 / 4 + errb^2 / 4; HillErrBound bounds it |
| CijKGvrh.Vp | CijKGvrh.py:185 | definition: the square root of (Kvrh + 4/3 Gvrh) / dens |
| CijKGvrh.Vs | CijKGvrh.py:187 | definition: the square root of Gvrh / dens |
| CijKGvrh.VpErr | CijKGvrh.py:186 | definition: Vp / 2 times the square root of (Kvrherr^2 + 16/9 Gvrherr^2) / (Kvrh + 4/3 Gvrh)^2 + denserr^2 / dens^2 |
| CijKGvrh.VsErr | CijKGvrh.py:188 | definition: Vs / 2 times the square root of Gvrherr^2 / Gvrh^2 + denserr^2 / dens^2 |
| CijKGvrh.Kr | CijKGvrh.py:172 | Kr times its compliance sum is 1 |
| CijKGvrh.Gr | CijKGvrh.py:173 | Gr times its compliance sum is 15 |
| CijKGvrh.Hill | CijKGvrh.py:175-176 | the Hill mean lies between the two bounds, equidistant from both |
| CijKGvrh.ModuliRow | CijKGvrh.py:143-187 | row 0 is [dens, Kv, Kr, Kvrh, Gv, Gr, Gvrh, Vp, Vs]; the Hill slots are the midpoints of their bounds; the velocities come from the row's own Hill slots |
| CijKGvrh.ErrorRow | CijKGvrh.py:178-188 | row 1 starts with denserr; Kvrherrb stands in slots 1 and 2 and Gvrherrb in slots 4 and 5; the Hill errors combine the spread of the bounds with them; slot 7 is Vperr and slot 8 Vserr of the row-0 velocities and the row-1 Hill errors and denserr |
| CijKGvrh.Vrh | CijKGvrh.py:190 | the table is 2x9: the moduli row over the error row |
| CijKGvrh.CijVRH | CijKGvrh.py:90-192 | the table is 2x9; for s2r the inverse of the Voigt matrix, row 0 is [dens, Kv(c1d), Kr(s2r), (Kv + Kr) / 2, Gv(c1d), Gr(s2r), (Gv + Gr) / 2, Vp, Vs], with the velocities computed from its own Hill slots; row 1 starts with denserr and holds Kvrherrb in slots 1 and 2 and Gvrherrb in slots 4 and 5; slots 3 and 6 are the Hill errors of the row-0 bounds with those errors; slots 7 and 8 are Vperr and Vserr of the row-0 velocities, the row-1 Hill errors, dens and denserr; for a square root, Kvrherr >= abs(Kv - Kr) / 2 and Gvrherr >= abs(Gv - Gr) / 2 |
| CijKGvrh.VrhErrorBounds | CijKGvrh.py:178-183 | Kvrherr >= abs(Kv - Kr) / 2 and Gvrherr >= abs(Gv - Gr) / 2 |
| CijKGvrh.HillErrBound | CijKGvrh.py:180 | a Hill error is at least half the spread of its bounds |
| CijKGvrh.ExactConstants | CijKGvrh.py:179-183 | with zero constant errors, Kvrherrb = Gvrherrb = 0, Kvrherr = abs(Kv - Kr) / 2 and Gvrherr = abs(Gv - Gr) / 2 |
| CijKGvrh.VpErrNonNegative | CijKGvrh.py:186 | for a square root, a non-negative Vp has a non-negative Vperr |
| CijKGvrh.VsErrNonNegative | CijKGvrh.py:188 | for a square root, a non-negative Vs has a non-negative Vserr |
| CijKGvrh.VrhVelocityErrors | CijKGvrh.py:185-190 | for a square root, dens > 0 and non-negative Gvrh and Kvrh + 4/3 Gvrh, the table's Vp and Vs and their errors Vperr and Vserr are all non-negative |
| CijKGvrh.VrhVelocities | CijKGvrh.py:185-187 | for dens > 0 and non-negative moduli, Vs^2 dens = Gvrh and Vp^2 dens = Kvrh + 4/3 Gvrh |
| CijKGvrh.VelocitySquare | CijKGvrh.py:185-187 | sqrt(M / dens) squares back to M / dens |
| CijKGvrh.VoigtReadsFirstNine | CijKGvrh.py:143-144 | Kv and Gv depend only on the first nine constants |
| CijKGvrh.CubicExample | CijKGvrh.py:143-144 | the cubic constants 200/100/100 give Kv = 400/3 and Gv = 80 |
| CijtVel.NormSq | CijtVel.py:90 | definition: the squared Euclidean norm n0^2 + n1^2 + n2^2 |
| CijtVel.Normalize | CijtVel.py:90 | definition: n divided by sqrt of its squared norm, defined only for a nonzero norm |
| CijtVel.Term | CijtVel.py:97 | definition: term t of A[i][k] is c4r[i][j][k][l] u[j] u[l] with j = t / 3 and l = t % 3, the order in which the j/l loops add them |
| CijtVel.PartialSum | CijtVel.py:92-97 | definition: the sum of the first p terms of A[i][k], starting from the zero of np.zeros |
| CijtVel.Velocities | CijtVel.py:103 | definition: sqrt(E / dens) for each of the three eigenvalues; VelocitiesSquare squares them back |
| CijtVel.ChristoffelMatrix | CijtVel.py:92-97 | starting from zero, the j/l/i/k loop leaves A[i][k] = sum over j, l of c[i][j][k][l] u[j] u[l] |
| CijtVel.AddTerms | CijtVel.py:95-97 | one (j, l) sweep adds term 3j + l to every entry |
| CijtVel.AddTerm | CijtVel.py:97 | one `+=` adds its term to entry (i, k) and leaves the others as they were |
| CijtVel.Christoffel | CijtVel.py:92-97 | A is 3x3 and A[i][k] is the sum of its nine terms |
| CijtVel.ChristoffelSymmetric | CijtVel.py:92-97 | for a tensor with major symmetry, A is symmetric |
| CijtVel.PartialSumSwap | CijtVel.py:97 | swapping i and k swaps j and l in every term, so A[i][k] = A[k][i] |
| CijtVel.VoigtTensorSymmetric | CijtVel.py:87-97 | the tensor Cijtvel builds from the constants has major symmetry, so its Christoffel matrix is symmetric |
| CijtVel.PartialSumEven | CijtVel.py:97 | every partial sum is the same along -u as along u |
| CijtVel.ChristoffelEven | CijtVel.py:92-97 | A is unchanged when the direction is negated |
| CijtVel.NormalizeOdd | CijtVel.py:90 | normalising -n gives minus the normalised n |
| CijtVel.SignInvariance | CijtVel.py:84-108 | Cijtvel gives the same velocities and polarizations along -n as along n |
| CijtVel.VelocitiesSquare | CijtVel.py:103 | each velocity satisfies vel^2 dens = E for a non-negative eigenvalue and positive density |
| CijtVel.Argsort | CijtVel.py:105 | argsort returns a permutation of 0, 1, 2 in ascending order of velocity; ties are kept in index order, a modelling choice (see Left out) |
| CijtVel.Reorder | CijtVel.py:105-108 | the output velocities are non-increasing and are the input velocities permuted by the argsort; polarization row r is the eigenvector column of velocity r |
| CijtVel.ColumnOf | CijtVel.py:108 | `pol[:, c]` is column c |
| CijtVel.VelocitySolution | CijtVel.py:84-108 | the velocities are three and non-increasing, and the polarizations are 3x3 |
| CijtVel.Cijtvel | CijtVel.py:84-108 | the method's result is VelocitySolution: velocities descending, with their polarizations |
| CijAniso.AuIndex | CijAniso.py:112 | definition: AU = 5 Gv / Gr + Kv / Kr - 6 |
| CijAniso.AuErrorSquare | CijAniso.py:113 | definition: the radicand 25 (Gv/Gr)^2 (Gverr^2/Gv^2 + Grerr^2/Gr^2) + (Kv/Kr)^2 (Kverr^2/Kv^2 + Krerr^2/Kr^2) |
| CijAniso.AuError | CijAniso.py:113 | definition: AUerr, the square root of AuErrorSquare |
| CijAniso.UnivAniso | CijAniso.py:96-117 | [AU, AUerr] from the CijVRH table; the Voigt and Reuss error arguments are both CijVRH's Voigt-bound error |
| CijAniso.AuIsotropic | CijAniso.py:112 | AU = 0 when Gv = Gr and Kv = Kr |
| CijAniso.AuNonNegative | CijAniso.py:112 | AU >= 0 when each Voigt bound is at least its positive Reuss bound |
| CijAniso.AuErrorSquareNonNegative | CijAniso.py:113 | the weighted sum of squared relative errors is non-negative |
| CijAniso.AuErrorNonNegative | CijAniso.py:113 | AUerr >= 0 |
| CijAniso.AuErrorExact | CijAniso.py:113 | with zero errors, AUerr = 0 |
| CijAniso.Direction | CijAniso.py:149 | the sampled direction [nx, ny, z] / m has three components |
| CijAniso.DirectionNonZero | CijAniso.py:142-155 | a grid direction with z != 0 has positive norm, so Cijtvel can divide by it |
| CijAniso.SurveySize | CijAniso.py:140-142 | definition: the number of directions the loops visit, 2 m (m+1)^2, or 0 when m < 1 |
| CijAniso.SurveyPoint | CijAniso.py:140-159 | definition: the t-th point visited, read off t by division with remainder (nx-major, then ny, then nz, +nz before -nz) |
| CijAniso.SurveyIndex | CijAniso.py:140-159 | definition: the number of points visited before (nx, ny, nz) |
| CijAniso.SurveyEmpty | CijAniso.py:140-142 | the grid loops visit no direction exactly when m < 1 |
| CijAniso.SurveyOnGrid | CijAniso.py:140-142 | every visited point has 0 <= nx, ny <= m and 1 <= abs(z) <= m, so no direction is the zero vector |
| CijAniso.SurveyPairs | CijAniso.py:140-159 | each (nx, ny, nz) is visited at its nx-major position, immediately followed by (nx, ny, -nz), and both lie inside the 2 m (m+1)^2 visits |
| CijAniso.SurveyPointIndex | CijAniso.py:140-159 | conversely, the t-th visit is the pair position of its own point |
| CijAniso.SurveyDistinct | CijAniso.py:140-159 | no direction is visited twice |
| CijAniso.Sample | CijAniso.py:149-158 | Cijtvel's wave along the t-th surveyed direction, with three velocities and a 3x3 polarization matrix |
| CijAniso.Flatten | CijAniso.py:151 | `np.reshape(pol, 9)` has 9 entries, with pol[a][b] at 3a + b |
| CijAniso.Row | CijAniso.py:162 | a VelPol row has 12 entries: 3 velocities and 9 polarization components |
| CijAniso.SurveyTable | CijAniso.py:136-163 | once the seed row is deleted, the table has 2 m (m+1)^2 rows of 12 entries |
| CijAniso.TablePairs | CijAniso.py:149-159 | the rows at each pair position are Cijtvel's rows along [nx, ny, nz] / m and [nx, ny, -nz] / m |
| CijAniso.SampleIndex | CijAniso.py:149-159 | the samples at each pair position are Cijtvel's waves along the two directions |
| CijAniso.TableOrdered | CijAniso.py:150-158 | every row has Vp >= Vs1 >= Vs2 |
| CijAniso.SeqMax | CijAniso.py:169 | `max` is an entry of the column and bounds every entry from above |
| CijAniso.SeqMin | CijAniso.py:170 | `min` is an entry of the column and bounds every entry from below |
| CijAniso.FirstIndex | CijAniso.py:172 | `np.where(s == x)[0][0]` is the first position holding x |
| CijAniso.Column | CijAniso.py:168 | `VelPol[:, c]` is entry c of every row |
| CijAniso.Splitting | CijAniso.py:214 | DelVs is Vs1 - Vs2, row by row |
| CijAniso.MaxScan | CijAniso.py:169 | the scan computes the maximum |
| CijAniso.MinScan | CijAniso.py:170 | the scan computes the minimum |
| CijAniso.FirstIndexScan | CijAniso.py:172 | the scan finds the first occurrence |
| CijAniso.VpSummary | CijAniso.py:166-184 | definition: the Vp report of a table, with max and min of column 0, columns 3-5 of their first rows, and AVp; VpReport states its properties |
| CijAniso.VsSummary | CijAniso.py:186-210 | definition: the Vs report, with max of column 1 and min of column 2, columns 3-5 with 6-8 or 9-11 of their first rows, and AVs; VsReport states its properties |
| CijAniso.SplitSummary | CijAniso.py:212-230 | definition: the splitting report, with max of column 1 minus column 2 and the entries of its first row; SplitReport states its properties |
| CijAniso.Summary | CijAniso.py:166-236 | definition: EmptyTable for an empty table, otherwise the three reports |
| CijAniso.VpReport | CijAniso.py:166-184 | Vpmin <= every Vp <= Vpmax; each is reported with columns 3-5 of the first row attaining it; AVp = (Vpmax - Vpmin) / Vpvrh, which is >= 0 when Vpvrh > 0 |
| CijAniso.VsReport | CijAniso.py:186-210 | Vsmax is the largest Vs1 and Vsmin the smallest Vs2, possibly on different rows, each from its first row; Phon is columns 3-5, Pol is columns 6-8 or 9-11; AVs >= 0 when Vsvrh > 0 and rows are ordered |
| CijAniso.SplitReport | CijAniso.py:212-230 | DelVsmax is the largest Vs1 - Vs2, reported with Vs1, Vs2 and the polarizations of the first row attaining it; Phon appears twice; DVs >= 0 when Vsvrh > 0 and rows are ordered |
| CijAniso.SummaryNonNegative | CijAniso.py:181-227 | for rows with Vp >= Vs1 >= Vs2 and positive Vpvrh and Vsvrh, AVp, AVs and DVs are all >= 0 |
| CijAniso.SurveyNonNegative | CijAniso.py:140-230 | over the survey table, AVp, AVs and DVs are >= 0 for positive Vpvrh and Vsvrh |
| CijAniso.VpScan | CijAniso.py:166-184 | the Vp block computes the Vp report |
| CijAniso.VsScan | CijAniso.py:186-210 | the Vs block computes the Vs report |
| CijAniso.SplitScan | CijAniso.py:212-230 | the splitting block computes the splitting report |
| CijAniso.Zeros | CijAniso.py:126 | `np.zeros(n)` has n zero entries |
| CijAniso.GrownStep | CijAniso.py:152-153 | appending the next row to vel and pol1d keeps them equal to the table prefix, after the seed row |
| CijAniso.SamplePair | CijAniso.py:149-157 | one nz step computes the two table rows at the pair position of (nx, ny, nz) |
| CijAniso.ColumnLoop | CijAniso.py:142-159 | the nz loop appends the 2 m rows of column (nx, ny) |
| CijAniso.PlaneLoop | CijAniso.py:141-159 | the ny loop appends the 2 m (m+1) rows of plane nx |
| CijAniso.BuildTable | CijAniso.py:136-163 | the grid loops plus the concatenate and delete steps produce exactly the survey table |
| CijAniso.AVpVs | CijAniso.py:120-236 | Vpvrh and Vsvrh come from CijVRH with exact inputs; the result is the three reports over the survey table, or EmptyTable exactly when m < 1 |

## Left out

- `np.linalg.inv`, `np.linalg.eig`, `**0.5` and `linalg.norm` are foreign numeric routines. They are the parameters `inverse`, `eig` and `sqrt`:
  - the model does not prove that `inverse` inverts or that `eig` solves the eigenproblem;
  - `eig` is only required to return three values and a 3x3 matrix (`EigTotal`);
  - `sqrt` is only constrained on non-negative arguments.
  - Isotropic inputs giving Kv == Kr is therefore not stated.
- Floating point: all arithmetic is over exact reals, including the exact `==` ties of `np.where`.
- Division by zero: every division in the model requires a nonzero divisor. In numpy, float64 division by zero gives inf or nan instead. These are the requires:
  - the Reuss sums, dens, Gvrh and Kvrh + 4/3 Gvrh in `VrhDefined`;
  - Kv, Gv, Kr and Gr in `UnivAniso`;
  - Vpvrh and Vsvrh in `AVpVs`;
  - dens in `Velocities` and `Cijtvel`, where `E/dens` (CijtVel.py:103) gives inf or nan;
  - m in `Direction` (CijAniso.py:149 and 155), which `AVpVs` only calls for m >= 1.

  No error taxonomy is invented.
- The model has no error paths where the source raises an exception:
  - `np.linalg.inv` raises LinAlgError on a singular Voigt matrix, for example all constants zero (CijSij124d.py:189 and 199, reached from CijKGvrh.py:92). The parameter `inverse` is total and returns a matrix.
  - A negative eigenvalue makes a velocity nan (CijtVel.py:103). Then `max` is nan, `np.where(Vp == Vpmax)[0]` is empty, and indexing it raises IndexError (CijAniso.py:172-173; the Vs and splitting blocks fail the same way). The model's `sqrt` returns some real for a negative argument, so `AVpVs` returns a `Survey`.
  - A zero direction makes `n/linalg.norm(n)` nan (CijtVel.py:90), and `linalg.eig` (`numpy.linalg`, CijtVel.py:74) raises LinAlgError on a matrix holding nan (CijtVel.py:101). The model excludes it by the requires `sqrt(NormSq(n)) != 0.0` of `Cijtvel`. `AVpVs` never passes a zero direction (`DirectionNonZero`, `SurveyOnGrid`), so only direct callers of `Cijtvel` meet it.
  - With dens == 0 as a Python float, `denserr**2/dens**2` raises ZeroDivisionError (CijKGvrh.py:186). The model excludes dens == 0 through `VrhDefined`.
- In-place update and aliasing of numpy arrays are not modelled. Arrays are sequence values. No array the core writes is aliased. The column views such as `VelPol[:,3]` (CijAniso.py:169-230) are only read.
- The empty survey: with m < 1 the table is empty and numpy's `max` raises ValueError. The model returns `Survey.EmptyTable` instead.
- The Vsv/Vsh relabelling block of `Cijtvel` (CijtVel.py:112-122) is commented out in the source. It is not modelled.
- The `DiffVs` and `DiffVp` entries (CijtVel.py:25-43) are documentation with no code. The same holds for the `cijHS` documentation (CijKGvrh.py:39-52). None is modelled.
- All `print` statements, and the commented-out prints, are left out. So is the `pol = np.zeros((3,3))` at CijAniso.py:137, which is never read.
- CijtVel.Argsort: numpy's default argsort is not documented as stable. The model fixes the tie order, equal velocities keeping their index order. For degenerate shear waves this choice decides which eigenvector lands in `pol[1]` and which in `pol[2]`.
- CijtVel.Reorder states that the velocities and eigenvector columns move together under one permutation (Argsort's IsPermutation3). It does not state this as a multiset equality.
- CijAniso.VsReport and CijAniso.SplitReport call columns 3-5 "Phon", as the source does. The source stores the P-wave polarization `pol[0]` there (CijAniso.py:151), not the sampled direction. The model reports what the code stores.
